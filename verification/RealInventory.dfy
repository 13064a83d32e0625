/**
  What the market maker's orders really bought and sold, against what it is told. A quote of one unit
  is filled whole or not at all, so nothing is lost; larger quotes can lose fills without limit.
 */
module RealInventory {
  import opened Orders
  import opened PriorityBook
  import opened BookInvariant
  import opened BookRuns
  import opened Backtest
  import opened BacktestLaws
  import opened BacktestRuns
  import opened BacktestTheorems
  import opened MarketMakers
  import opened MarketMakerBand
  import opened MarketMakerRuns
  import opened MarketMakerPlays
  import opened LeakingInventory

  // ----- orders of one unit -----

  /** An order that rests with at most one unit, routed while it does, and has lost nothing. */
  ghost predicate WholeOrder(w: World, id: nat) {
    && LostQty(w.lost, id) == 0 && Resting(w.book, id) <= 1
    && (Resting(w.book, id) > 0 ==> id in w.routing)
  }

  ghost predicate Whole(w: World, m: nat) {
    forall id :: PlacedBy(w.orders, m, id) ==> WholeOrder(w, id)
  }

  /** A placement adds no loss to an order that rests routed. */
  lemma NoNewLoss(w: World, routing: map<nat, nat>, side: Side, price: int, qty: int, id: nat)
    requires Backtest.Inv(w) && id in w.orders && WholeOrder(w, id)
    requires id in w.routing ==> id in routing
    ensures LostQty(w.lost + Losses(routing, w.orders, TradesOf(w, side, price, qty), 0), id) == 0
  {
    hide PriorityBook.Inv, Place, Losses, LostQty, Resting, MadeBy, Run, Attributed, CreditsOk, AccountsOk;
    var ts := TradesOf(w, side, price, qty);
    LostAppend(w.lost, Losses(routing, w.orders, ts, 0), id);
    LossesCount(routing, w.orders, ts, 0, id);
    assert ts[0..] == ts;
    RestingOld(w, side, price, qty, id);
    PlaceKeepsInv(w.book, side, price, qty);
    RestsHasQty(Place(w.book, side, price, qty).book, id);
  }

  lemma ExoAddKeepsWhole(w: World, m: nat, side: Side, price: int, qty: int, extId: nat)
    requires Backtest.Inv(w) && Whole(w, m)
    ensures Whole(ExoAdd(w, side, price, qty, extId), m)
  {
    hide PriorityBook.Inv, Place, ExoCredits, Losses, LostQty, Deliver, Resting, MadeBy, Run, Attributed, CreditsOk,
         AccountsOk;
    var v, ts := ExoAdd(w, side, price, qty, extId), TradesOf(w, side, price, qty);
    ExoRoutingKeeps(w.routing, ts, 0);
    PlacementIsFair(w, side, price, qty);
    forall id | PlacedBy(v.orders, m, id)
      ensures WholeOrder(v, id)
    {
      assert PlacedBy(w.orders, m, id);
      NoNewLoss(w, w.routing, side, price, qty, id);
      RestingOld(w, side, price, qty, id);
      if k :| 0 <= k < |ts| && ts[k].makerId == id {
        MadeAt(ts, k);
      }
    }
  }

  lemma OwnPlaceKeepsWhole(w: World, m: nat, s: nat, side: Side, price: int, qty: int)
    requires Backtest.Inv(w) && s < |w.accounts| && Whole(w, m) && (s == m ==> qty <= 1)
    ensures Whole(OwnPlace(w, s, side, price, qty), m)
  {
    hide PriorityBook.Inv, Place, OwnCredits, Losses, LostQty, Deliver, Resting, MadeBy, Run, Attributed, CreditsOk,
         AccountsOk;
    var v, ts := OwnPlace(w, s, side, price, qty), TradesOf(w, side, price, qty);
    forall id | PlacedBy(v.orders, m, id)
      ensures WholeOrder(v, id)
    {
      if id == w.book.nextId {
        NewOrderIsClean(w);
        LostAppend(w.lost, Losses(v.routing, w.orders, ts, 0), id);
        LossesCount(v.routing, w.orders, ts, 0, id);
        NewQuoteRests(w, side, price, qty);
        PlacementIsFair(w, side, price, qty);
        PositiveTotal(ts);
      } else {
        assert PlacedBy(w.orders, m, id);
        NoNewLoss(w, v.routing, side, price, qty, id);
        RestingOld(w, side, price, qty, id);
      }
    }
  }

  lemma CancelKeepsWhole(w: World, v: World, m: nat, x: nat)
    requires Backtest.Inv(w) && Whole(w, m)
    requires v.book == Cancel(w.book, x) && v.orders == w.orders && v.lost == w.lost
    requires v.routing == w.routing || v.routing == w.routing - {x}
    ensures Whole(v, m)
  {
    hide PriorityBook.Inv, Cancel, LostQty, Resting, Run, Attributed, CreditsOk, AccountsOk;
    forall id | PlacedBy(v.orders, m, id)
      ensures WholeOrder(v, id)
    {
      assert PlacedBy(w.orders, m, id);
      RestingAfterCancel(w.book, x, id);
    }
  }

  /** Orders of `m` for at most one unit lose nothing, whatever else happens. */
  lemma NextKeepsWhole(w: World, m: nat, step: Step)
    requires Backtest.Inv(w) && Knows(|w.accounts|, step) && Whole(w, m)
    requires step.Quote? && step.strategy == m ==> step.qty <= 1
    ensures Whole(Next(w, step), m)
  {
    hide Backtest.Inv, WholeOrder, ExoAdd, OwnPlace;
    match step
    case Add(side, price, qty, extId) => ExoAddKeepsWhole(w, m, side, price, qty, extId);
    case Remove(extId) =>
      if extId in w.ext {
        CancelKeepsWhole(w, Next(w, step), m, w.ext[extId]);
      }
    case TradePrint(price) => PrintKeepsWhole(w, m, price);
    case Quote(s, side, price, qty) => OwnPlaceKeepsWhole(w, m, s, side, price, qty);
    case Pull(s, id) =>
      OwnCancelKeepsInv(w, s, id);
      CancelKeepsWhole(w, Next(w, step), m, id);
  }

  lemma PrintKeepsWhole(w: World, m: nat, price: int)
    requires Whole(w, m)
    ensures Whole(Print(w, price), m)
  {
    forall id | PlacedBy(w.orders, m, id)
      ensures WholeOrder(Print(w, price), id)
    {
      assert WholeOrder(w, id);
    }
  }

  // ----- a limit below zero -----

  ghost predicate Idle(w: World, m: nat) {
    forall id :: !PlacedBy(w.orders, m, id)
  }

  lemma {:induction false} IdleHoldsNothing(w: World, m: nat, n: nat)
    requires Idle(w, m)
    ensures Holdings(w, m, n) == 0 && NetLost(w, m, n) == 0
  {
    if n > 0 {
      IdleHoldsNothing(w, m, n - 1);
    }
  }

  lemma IdleIsFlat(w: World, m: nat)
    requires Backtest.Inv(w) && m < |w.accounts| && Idle(w, m)
    ensures PositionOf(w, m) == 0
  {
    hide Backtest.Inv, Holdings, NetLost;
    PositionIsHoldings(w, m);
    IdleHoldsNothing(w, m, w.book.nextId);
  }

  // ----- every replay -----

  /** At most one unit a quote, or a limit below zero, at which nothing is ever quoted. */
  predicate Sheltered(c: Config) {
    c.quoteQty <= 1 || c.limit < 0
  }

  ghost predicate Kept(c: Config, w: World, m: nat) {
    if c.quoteQty <= 1 then Whole(w, m) else Idle(w, m)
  }

  lemma NextKeeps(c: Config, w: World, m: nat, step: Step)
    requires Backtest.Inv(w) && Knows(|w.accounts|, step) && Kept(c, w, m)
    requires step.Quote? && step.strategy == m ==> step.qty <= 1 && c.quoteQty <= 1
    ensures Kept(c, Next(w, step), m)
  {
    hide Backtest.Inv, Whole;
    if c.quoteQty <= 1 {
      NextKeepsWhole(w, m, step);
    } else {
      hide Place, ExoCredits, OwnCredits, Losses, Deliver, ExoRouting, Cancel, Rests;
      forall id
        ensures !PlacedBy(Next(w, step).orders, m, id)
      {
        assert !PlacedBy(w.orders, m, id);
      }
    }
  }

  lemma PullsKeep(c: Config, d: Desk, m: nat)
    requires DeskInv(c, d, m) && Kept(c, d.world, m)
    ensures Kept(c, PullBid(d, m).world, m) && Kept(c, PullAsk(d, m).world, m)
  {
    hide Backtest.Inv, Kept, Next, PullBid, PullAsk, QuotesOk, Banded;
    PullsAreSteps(d, m);
    if d.quotes.bidId != 0 {
      NextKeeps(c, d.world, m, Pull(m, d.quotes.bidId));
    }
    if d.quotes.askId != 0 {
      NextKeeps(c, d.world, m, Pull(m, d.quotes.askId));
    }
  }

  lemma QuotesKeep(c: Config, d: Desk, m: nat, mid: int, pos: int)
    requires Sheltered(c) && DeskInv(c, d, m) && Kept(c, d.world, m) && (c.quoteQty > 1 ==> pos == 0)
    ensures Kept(c, QuoteBid(c, d, m, mid, pos).world, m) && Kept(c, QuoteAsk(c, d, m, mid, pos).world, m)
  {
    hide Backtest.Inv, Kept, Next, QuoteBid, QuoteAsk, QuotesOk, Banded;
    QuotesAreSteps(c, d, m, mid, pos);
    if pos <= c.limit {
      NextKeeps(c, d.world, m, Quote(m, Buy, mid - c.spread, c.quoteQty));
    }
    if pos >= -c.limit {
      NextKeeps(c, d.world, m, Quote(m, Sell, mid + c.spread, c.quoteQty));
    }
  }

  lemma RequoteKeeps(c: Config, d: Desk, m: nat, mid: int)
    requires Sheltered(c) && DeskInv(c, d, m) && Kept(c, d.world, m)
    ensures Kept(c, PlaceQuotes(c, PullQuotes(d, m), m, mid).world, m)
  {
    hide DeskInv, Kept, PullBid, PullAsk, QuoteBid, QuoteAsk, PositionOf;
    var a, b := PullBid(d, m), PullQuotes(d, m);
    var pos := PositionOf(b.world, m);
    var e := QuoteBid(c, b, m, mid, pos);
    RequoteStaysInBand(c, d, m, mid);
    PullsKeep(c, d, m);
    PullsKeep(c, a, m);
    KeptIsFlat(c, b, m);
    QuotesKeep(c, b, m, mid, pos);
    QuotesKeep(c, e, m, mid, pos);
  }

  lemma KeptIsFlat(c: Config, d: Desk, m: nat)
    requires DeskInv(c, d, m) && Kept(c, d.world, m)
    ensures c.quoteQty > 1 ==> PositionOf(d.world, m) == 0
  {
    hide Backtest.Inv, QuotesOk, Banded;
    if c.quoteQty > 1 {
      IdleIsFlat(d.world, m);
    }
  }

  lemma MoveKeeps(c: Config, d: Desk, m: nat, move: Move)
    requires c.interval > 0 && Sheltered(c) && DeskInv(c, d, m) && Kept(c, d.world, m)
    requires Allowed(|d.world.accounts|, m, move)
    ensures Kept(c, Moved(c, d, m, move).world, m)
  {
    hide Backtest.Inv, Kept, Next, QuotesOk, Banded, PullQuotes, PlaceQuotes, Requotes;
    match move
    case Tick(top) =>
      var counted := d.(quotes := d.quotes.(ticks := d.quotes.ticks + 1));
      RememberMid(c, d, m, top.mid);
      RequoteKeeps(c, counted, m, top.mid);
    case Elsewhere(step) =>
      NextKeeps(c, d.world, m, step);
  }

  lemma OpeningIsKept(c: Config, capacity: nat, strategies: nat, m: nat)
    ensures Kept(c, Opening(capacity, strategies).world, m)
  {
  }

  lemma {:induction false} ReplayKeeps(c: Config, capacity: nat, strategies: nat, m: nat, moves: seq<Move>)
    requires c.interval > 0 && m < strategies && Sheltered(c)
    requires forall i :: 0 <= i < |moves| ==> Allowed(strategies, m, moves[i])
    ensures Kept(c, Replayed(c, Opening(capacity, strategies), m, moves).world, m)
  {
    hide DeskInv, Kept, Moved, Opening, Allowed;
    if moves == [] {
      OpeningIsKept(c, capacity, strategies, m);
    } else {
      var n := |moves| - 1;
      ReplayKeeps(c, capacity, strategies, m, moves[..n]);
      InventoryIsBounded(c, capacity, strategies, m, moves[..n]);
      MoveKeeps(c, Replayed(c, Opening(capacity, strategies), m, moves[..n]), m, moves[n]);
    }
  }

  lemma {:induction false} WholeLosesNothing(w: World, m: nat, n: nat)
    requires Whole(w, m)
    ensures NetLost(w, m, n) == 0
  {
    if n > 0 {
      WholeLosesNothing(w, m, n - 1);
      assert PlacedBy(w.orders, m, n - 1) ==> WholeOrder(w, n - 1);
    }
  }

  lemma KeptLosesNothing(c: Config, w: World, m: nat, n: nat)
    requires Kept(c, w, m)
    ensures NetLost(w, m, n) == 0
  {
    if c.quoteQty <= 1 {
      WholeLosesNothing(w, m, n);
    } else {
      IdleHoldsNothing(w, m, n);
    }
  }

  /**
    Sheltered, the market maker is told of everything: in every replay, whatever the rest of the
    backtest does, it really holds its position, and so stays in the band.
   */
  lemma ShelteredHoldsItsPosition(c: Config, capacity: nat, strategies: nat, m: nat, moves: seq<Move>)
    requires c.interval > 0 && m < strategies && Sheltered(c)
    requires forall i :: 0 <= i < |moves| ==> Allowed(strategies, m, moves[i])
    ensures var w := Replayed(c, Opening(capacity, strategies), m, moves).world;
            -Bound(c) <= Holdings(w, m, w.book.nextId) == PositionOf(w, m) <= Bound(c)
  {
    hide Backtest.Inv, QuotesOk, Banded, Kept, Replayed, Opening, Allowed, Holdings, NetLost;
    var w := Replayed(c, Opening(capacity, strategies), m, moves).world;
    InventoryIsBounded(c, capacity, strategies, m, moves);
    ReplayKeeps(c, capacity, strategies, m, moves);
    KeptLosesNothing(c, w, m, w.book.nextId);
    PositionIsHoldings(w, m);
  }

  // ----- exactly when -----

  ghost predicate AllFromFile(events: seq<Step>) {
    forall i :: 0 <= i < |events| ==> FromFile(events[i])
  }

  function Held(c: Config, capacity: nat, strategies: nat, m: nat, events: seq<Step>): int
    requires c.interval > 0
  {
    var w := Played(c, Opening(capacity, strategies), m, events).world;
    Holdings(w, m, w.book.nextId)
  }

  /** No replay of a tick file takes the real inventory past `bound`. */
  ghost predicate HeldWithin(c: Config, capacity: nat, strategies: nat, m: nat, bound: int)
    requires c.interval > 0
  {
    forall events :: AllFromFile(events) ==> -bound <= Held(c, capacity, strategies, m, events) <= bound
  }

  lemma ShelteredIsHeld(c: Config, capacity: nat, strategies: nat, m: nat)
    requires c.interval > 0 && m < strategies && Sheltered(c)
    ensures HeldWithin(c, capacity, strategies, m, Bound(c))
  {
    hide Played, Replayed, Opening, Holdings, Allowed, MovesOf, FromFile, PositionOf;
    var o := Opening(capacity, strategies);
    forall events | AllFromFile(events)
      ensures -Bound(c) <= Held(c, capacity, strategies, m, events) <= Bound(c)
    {
      PlayedIsReplayed(c, o, m, events);
      MovesAreAllowed(c, o, m, strategies, events);
      ShelteredHoldsItsPosition(c, capacity, strategies, m, MovesOf(c, o, m, events));
    }
  }

  lemma UnshelteredLeaks(c: Config, capacity: nat, strategies: nat, m: nat, bound: int)
    requires Usual(c) && c.quoteQty >= 2 && capacity >= 4 && m < strategies
    ensures !HeldWithin(c, capacity, strategies, m, bound)
  {
    hide Played, Opening, Holdings, Leaks, PositionOf, FromFile;
    var n := Max(0, bound) + 1;
    LeaksAddUp(c, capacity, strategies, m, n);
    assert n * (c.quoteQty - 1) >= n * 1;
    assert AllFromFile(Leaks(c, n)) && Held(c, capacity, strategies, m, Leaks(c, n)) > bound;
  }

  /**
    Over all replays of tick files, what the market maker's orders really bought and sold stays in its
    band exactly if the configuration is sheltered; if it is not, no bound at all holds.
   */
  lemma RealInventoryIsBoundedIff(c: Config, capacity: nat, strategies: nat, m: nat)
    requires Workable(c) && capacity >= 4 && m < strategies
    ensures HeldWithin(c, capacity, strategies, m, Bound(c)) <==> Sheltered(c)
    ensures (exists bound :: HeldWithin(c, capacity, strategies, m, bound)) <==> Sheltered(c)
  {
    hide HeldWithin, Bound;
    if Sheltered(c) {
      ShelteredIsHeld(c, capacity, strategies, m);
    } else {
      forall bound
        ensures !HeldWithin(c, capacity, strategies, m, bound)
      {
        UnshelteredLeaks(c, capacity, strategies, m, bound);
      }
    }
  }
}
