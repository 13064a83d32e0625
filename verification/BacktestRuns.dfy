/** Every run of the backtest: fills reach the strategy that placed the order, and what was not told is known. */
module BacktestRuns {
  import opened Orders
  import opened PriorityBook
  import opened BookInvariant
  import opened BookRuns
  import opened Backtest
  import opened BacktestLaws
  import P = Portfolios

  // ----- exogenous placements -----

  lemma ExoAddCredits(w: World, side: Side, price: int, qty: int, extId: nat)
    requires Backtest.Inv(w)
    ensures CreditsOk(ExoAdd(w, side, price, qty, extId))
  {
    var v := ExoAdd(w, side, price, qty, extId);
    var ts := TradesOf(w, side, price, qty);
    PlacementIsFair(w, side, price, qty);
    ExoCreditsMade(w.routing, side, ts, |w.ops|, 0);
    forall i | 0 <= i < |v.credits|
      ensures CreditOk(v, v.credits[i])
    {
      var c := v.credits[i];
      if i < |w.credits| {
        CreditStays(w, v, PlaceOp(side, price, qty), c);
      } else {
        assert c in ExoCredits(w.routing, side, ts, |w.ops|, 0);
        assert MakerOk(w.routing, side, ts, |w.ops|, c);
        NewCredit(w, v, side, price, qty, c);
      }
    }
  }

  /** Old and new losses together, against a smaller routing table. */
  lemma LossesJoin(w: World, v: World, routing: map<nat, nat>, ls: seq<Loss>)
    requires LossesOk(w) && v.lost == w.lost + ls
    requires forall id :: id in w.orders ==> id in v.orders && v.orders[id] == w.orders[id]
    requires forall id :: id in w.orders && id in v.routing ==> id in w.routing && id in routing
    requires forall l :: l in ls ==> OwnedByStrategy(w.orders, l.order) && l.order !in routing
    ensures LossesOk(v)
  {
    forall i | 0 <= i < |v.lost|
      ensures OwnedByStrategy(v.orders, v.lost[i].order) && v.lost[i].order !in v.routing
    {
      if i < |w.lost| {
        assert v.lost[i] == w.lost[i];
      } else {
        assert v.lost[i] == ls[i - |w.lost|];
        assert ls[i - |w.lost|] in ls;
      }
    }
  }

  lemma ExoAddRouting(w: World, side: Side, price: int, qty: int, extId: nat)
    requires Backtest.Inv(w)
    ensures var v := ExoAdd(w, side, price, qty, extId);
            RoutingOk(v) && LossesOk(v)
  {
    hide Losses, Run, Place, Deliver, CreditedQty, LostQty, TradedQty, FillsOf;
    var v := ExoAdd(w, side, price, qty, extId);
    var ts := TradesOf(w, side, price, qty);
    ExoRoutingKeeps(w.routing, ts, 0);
    LossesMade(w.routing, w.orders, ts, 0);
    LossesJoin(w, v, w.routing, Losses(w.routing, w.orders, ts, 0));
  }

  lemma ExoAddAttributed(w: World, side: Side, price: int, qty: int, extId: nat, id: nat)
    requires Backtest.Inv(w)
    requires OwnedByStrategy(ExoAdd(w, side, price, qty, extId).orders, id)
    ensures var v := ExoAdd(w, side, price, qty, extId);
            CreditedQty(v.credits, id) + LostQty(v.lost, id) == TradedQty(v, id)
  {
    var v := ExoAdd(w, side, price, qty, extId);
    var ts := TradesOf(w, side, price, qty);
    assert id in w.orders && v.orders[id] == w.orders[id];
    PlacementIsFair(w, side, price, qty);
    ExoCredited(w.routing, side, ts, |w.ops|, 0, id);
    LossesCount(w.routing, w.orders, ts, 0, id);
    assert ts[0..] == ts;
    CreditedAppend(w.credits, ExoCredits(w.routing, side, ts, |w.ops|, 0), id);
    LostAppend(w.lost, Losses(w.routing, w.orders, ts, 0), id);
    TradedStep(w, v, side, price, qty, id);
    PlaceConserves(w.book, side, price, qty, id);
  }

  lemma ExoAddKeepsInv(w: World, side: Side, price: int, qty: int, extId: nat)
    requires Backtest.Inv(w)
    ensures Backtest.Inv(ExoAdd(w, side, price, qty, extId))
  {
    var v := ExoAdd(w, side, price, qty, extId);
    SubmitKeeps(w, v, Exogenous, side, price, qty);
    ExoAddCredits(w, side, price, qty, extId);
    ExoAddRouting(w, side, price, qty, extId);
    AccountsFold(w, v, w.accounts, ExoCredits(w.routing, side, TradesOf(w, side, price, qty), |w.ops|, 0));
    forall id | id in v.orders && v.orders[id].owner.Strategy?
      ensures CreditedQty(v.credits, id) + LostQty(v.lost, id) == TradedQty(v, id)
    {
      ExoAddAttributed(w, side, price, qty, extId, id);
    }
  }

  // ----- strategy placements -----

  lemma OwnPlaceCredits(w: World, s: nat, side: Side, price: int, qty: int)
    requires Backtest.Inv(w) && s < |w.accounts|
    ensures CreditsOk(OwnPlace(w, s, side, price, qty))
  {
    var v := OwnPlace(w, s, side, price, qty);
    var ts := TradesOf(w, side, price, qty);
    PlacementIsFair(w, side, price, qty);
    OwnCreditsMade(v.routing, s, side, ts, |w.ops|, 0);
    forall i | 0 <= i < |v.credits|
      ensures CreditOk(v, v.credits[i])
    {
      var c := v.credits[i];
      if i < |w.credits| {
        CreditStays(w, v, PlaceOp(side, price, qty), c);
      } else {
        assert c in OwnCredits(v.routing, s, side, ts, |w.ops|, 0);
        assert MakerOk(v.routing, side, ts, |w.ops|, c) || TakerOk(s, side, ts, |w.ops|, c);
        NewCredit(w, v, side, price, qty, c);
      }
    }
  }

  lemma OwnPlaceRouting(w: World, s: nat, side: Side, price: int, qty: int)
    requires Backtest.Inv(w) && s < |w.accounts|
    ensures var v := OwnPlace(w, s, side, price, qty);
            RoutingOk(v) && LossesOk(v)
  {
    hide Losses, Run, Place, Deliver, CreditedQty, LostQty, TradedQty, FillsOf;
    var v := OwnPlace(w, s, side, price, qty);
    var ts := TradesOf(w, side, price, qty);
    LossesMade(v.routing, w.orders, ts, 0);
    LossesJoin(w, v, v.routing, Losses(v.routing, w.orders, ts, 0));
  }

  /** Credits and losses so far name only orders already placed. */
  lemma {:induction false} NotYetCredited(w: World, cs: seq<Credit>, id: nat)
    requires id !in w.orders && forall i :: 0 <= i < |cs| ==> cs[i].order in w.orders
    ensures CreditedQty(cs, id) == 0
  {
    if cs != [] {
      NotYetCredited(w, cs[..|cs| - 1], id);
    }
  }

  lemma {:induction false} NotYetLost(w: World, ls: seq<Loss>, id: nat)
    requires id !in w.orders && forall i :: 0 <= i < |ls| ==> ls[i].order in w.orders
    ensures LostQty(ls, id) == 0
  {
    if ls != [] {
      NotYetLost(w, ls[..|ls| - 1], id);
    }
  }

  lemma NewOrderIsClean(w: World)
    requires Backtest.Inv(w)
    ensures var id := w.book.nextId;
            CreditedQty(w.credits, id) == 0 && LostQty(w.lost, id) == 0 && TradedQty(w, id) == 0
  {
    var id := w.book.nextId;
    assert id !in w.orders;
    forall i | 0 <= i < |w.credits|
      ensures w.credits[i].order in w.orders
    {
      assert CreditOk(w, w.credits[i]);
    }
    NotYetCredited(w, w.credits, id);
    NotYetLost(w, w.lost, id);
    UnusedHasNotTraded(w.capacity, w.ops, id);
  }

  lemma OwnPlaceAttributed(w: World, s: nat, side: Side, price: int, qty: int, id: nat)
    requires Backtest.Inv(w) && s < |w.accounts|
    requires OwnedByStrategy(OwnPlace(w, s, side, price, qty).orders, id)
    ensures var v := OwnPlace(w, s, side, price, qty);
            CreditedQty(v.credits, id) + LostQty(v.lost, id) == TradedQty(v, id)
  {
    hide Run, Ledger, Deliver, CreditedQty, LostQty, FillsOf, Losses, OwnCredits, Fill, Insert;
    var v := OwnPlace(w, s, side, price, qty);
    var ts := TradesOf(w, side, price, qty);
    PlacementIsFair(w, side, price, qty);
    OwnCredited(v.routing, s, side, ts, |w.ops|, 0, id, w.book.nextId);
    LossesCount(v.routing, w.orders, ts, 0, id);
    assert ts[0..] == ts;
    CreditedAppend(w.credits, OwnCredits(v.routing, s, side, ts, |w.ops|, 0), id);
    LostAppend(w.lost, Losses(v.routing, w.orders, ts, 0), id);
    TradedStep(w, v, side, price, qty, id);
    PlaceConserves(w.book, side, price, qty, id);
    if id == w.book.nextId {
      NewOrderIsClean(w);
      PlacementIgnores(w.book, side, price, qty, id);
    } else {
      assert id in w.orders && v.orders[id] == w.orders[id];
    }
  }

  lemma OwnPlaceKeepsInv(w: World, s: nat, side: Side, price: int, qty: int)
    requires Backtest.Inv(w) && s < |w.accounts|
    ensures Backtest.Inv(OwnPlace(w, s, side, price, qty))
  {
    var v := OwnPlace(w, s, side, price, qty);
    SubmitKeeps(w, v, Strategy(s), side, price, qty);
    OwnPlaceCredits(w, s, side, price, qty);
    OwnPlaceRouting(w, s, side, price, qty);
    AccountsFold(w, v, Bump(w.accounts, s, 1, 0),
                 OwnCredits(v.routing, s, side, TradesOf(w, side, price, qty), |w.ops|, 0));
    forall id | id in v.orders && v.orders[id].owner.Strategy?
      ensures CreditedQty(v.credits, id) + LostQty(v.lost, id) == TradedQty(v, id)
    {
      OwnPlaceAttributed(w, s, side, price, qty, id);
    }
  }

  // ----- cancels -----

  lemma CancelKeepsOrders(w: World, v: World, x: nat)
    requires Recorded(w) && PriorityBook.Inv(w.book) && OrdersOk(w)
    requires v.capacity == w.capacity && v.book == Cancel(w.book, x) && v.ops == w.ops + [CancelOp(x)]
    requires v.orders == w.orders && |v.accounts| == |w.accounts|
    ensures Recorded(v) && PriorityBook.Inv(v.book) && OrdersOk(v)
  {
    hide Run, Rests, PriorityBook.Remove, PriorityBook.Inv, HasId;
    RecordedStep(w, CancelOp(x));
    CancelKeepsInv(w.book, x);
    forall side, id | HasId(SideOf(v.book, side), id)
      ensures id in v.orders && v.orders[id].side == side
    {
      CancelledFrom(w.book, x, side, id);
    }
  }

  lemma CancelKeepsHistory(w: World, v: World, x: nat)
    requires Recorded(w) && CreditsOk(w) && Attributed(w)
    requires v.capacity == w.capacity && v.ops == w.ops + [CancelOp(x)]
    requires v.orders == w.orders && v.credits == w.credits && v.lost == w.lost
    ensures CreditsOk(v) && Attributed(v)
  {
    hide Run, Ledger, CreditedQty, LostQty;
    forall i | 0 <= i < |v.credits|
      ensures CreditOk(v, v.credits[i])
    {
      CreditStays(w, v, CancelOp(x), v.credits[i]);
    }
    forall id | id in v.orders && v.orders[id].owner.Strategy?
      ensures CreditedQty(v.credits, id) + LostQty(v.lost, id) == TradedQty(v, id)
    {
      TradedUnchanged(w, v, x, id);
    }
  }

  /** A cancel, whoever asks for it: the book changes, the credits do not. */
  lemma CancelStepKeepsInv(w: World, v: World, x: nat)
    requires Backtest.Inv(w)
    requires v == w.(book := Cancel(w.book, x), ops := w.ops + [CancelOp(x)], accounts := v.accounts,
                     routing := v.routing, ext := v.ext)
    requires |v.accounts| == |w.accounts|
    requires forall s :: 0 <= s < |w.accounts| ==> v.accounts[s].portfolio == w.accounts[s].portfolio
    requires v.routing == w.routing || v.routing == w.routing - {x}
    ensures Backtest.Inv(v)
  {
    hide OrdersOk, CreditsOk, Attributed, Recorded, PriorityBook.Inv, Cancel, FillsOf, P.OnFills;
    CancelKeepsOrders(w, v, x);
    CancelKeepsHistory(w, v, x);
  }

  // ----- runs -----

  /** One event of the tick file, or one call a strategy makes. A strategy may name any id in a cancel. */
  datatype Step =
    | Add(side: Side, price: int, qty: int, extId: nat)
    | Remove(extId: nat)
    | TradePrint(price: int)
    | Quote(strategy: nat, side: Side, price: int, qty: int)
    | Pull(strategy: nat, id: nat)

  /** The events a tick file can hold. */
  predicate FromFile(step: Step) {
    step.Add? || step.Remove? || step.TradePrint?
  }

  predicate Knows(strategies: nat, step: Step) {
    (step.Quote? ==> step.strategy < strategies) && (step.Pull? ==> step.strategy < strategies)
  }

  function Next(w: World, step: Step): World {
    match step
    case Add(side, price, qty, extId) => ExoAdd(w, side, price, qty, extId)
    case Remove(extId) => ExoCancel(w, extId)
    case TradePrint(price) => Print(w, price)
    case Quote(s, side, price, qty) => OwnPlace(w, s, side, price, qty)
    case Pull(s, id) => OwnCancel(w, s, id)
  }

  function Play(w: World, steps: seq<Step>): World {
    if steps == [] then w else Next(Play(w, steps[..|steps| - 1]), steps[|steps| - 1])
  }

  lemma NextKeepsInv(w: World, step: Step)
    requires Backtest.Inv(w) && Knows(|w.accounts|, step)
    ensures Backtest.Inv(Next(w, step)) && |Next(w, step).accounts| == |w.accounts|
  {
    hide PriorityBook.Inv, OrdersOk, CreditsOk, Attributed, Recorded, AccountsOk, LossesOk, RoutingOk;
    match step
    case Add(side, price, qty, extId) => ExoAddKeepsInv(w, side, price, qty, extId);
    case Remove(extId) =>
      if extId in w.ext {
        CancelStepKeepsInv(w, Next(w, step), w.ext[extId]);
      }
    case TradePrint(price) =>
      PrintKeepsInv(w, price);
    case Quote(s, side, price, qty) => OwnPlaceKeepsInv(w, s, side, price, qty);
    case Pull(s, id) => CancelStepKeepsInv(w, Next(w, step), id);
  }

  lemma PrintKeepsInv(w: World, price: int)
    requires Backtest.Inv(w)
    ensures Backtest.Inv(Print(w, price))
  {
    hide Run, Ledger, CreditedQty, LostQty, FillsOf, PriorityBook.Inv, HasId, P.OnFills;
    var v := Print(w, price);
    assert forall i :: 0 <= i < |v.credits| && CreditOk(w, v.credits[i]) ==> CreditOk(v, v.credits[i]);
    assert forall id :: TradedQty(v, id) == TradedQty(w, id);
  }

  lemma StartInv(capacity: nat, strategies: nat)
    ensures Backtest.Inv(Start(capacity, strategies))
  {
  }

  lemma {:induction false} PlayKeepsInv(capacity: nat, strategies: nat, steps: seq<Step>)
    requires forall i :: 0 <= i < |steps| ==> Knows(strategies, steps[i])
    ensures var w := Play(Start(capacity, strategies), steps);
            Backtest.Inv(w) && |w.accounts| == strategies
  {
    if steps == [] {
      StartInv(capacity, strategies);
    } else {
      PlayKeepsInv(capacity, strategies, steps[..|steps| - 1]);
      NextKeepsInv(Play(Start(capacity, strategies), steps[..|steps| - 1]), steps[|steps| - 1]);
    }
  }
}
