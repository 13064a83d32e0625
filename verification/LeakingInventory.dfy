/**
  A play that can be repeated: a market maker quoting two units or more is drawn out, one of its bids
  is hit in two parts, and the second part reaches nobody. Each time it really holds more than it is told.
 */
module LeakingInventory {
  import opened Orders
  import opened PriorityBook
  import opened Backtest
  import opened BacktestRuns
  import opened BacktestTheorems
  import opened MarketMakers
  import opened MarketMakerBand
  import opened MarketMakerRuns
  import opened MarketMakerPlays

  lemma PlayedThen(c: Config, d: Desk, m: nat, events: seq<Step>, event: Step)
    requires c.interval > 0
    ensures Played(c, d, m, events + [event]) == Ticked(c, Upon(Played(c, d, m, events), event), m)
  {
    hide Ticked, Heard, Upon, Played;
    PlayedAppend(c, d, m, events, [event]);
    PlayedOne(c, Played(c, d, m, events), m, event);
    HeardIs(c, Played(c, d, m, events), m, event);
  }

  // ----- one leak -----

  /** The far order goes, and the market maker's own quotes are alone on the book. */
  lemma Alone(c: Config, d: Desk, m: nat, far: Order)
    requires Usual(c) && Up(c, d, m, 0, Buy, [], [far]) && FAR in d.world.ext && d.world.ext[FAR] == far.id
    ensures var e := Ticked(c, Upon(d, BacktestRuns.Remove(FAR)), m);
            && Up(c, e, m, 0, Buy, [], []) && e.world.lost == d.world.lost
            && Later(d, e)
  {
    var f := Upon(d, BacktestRuns.Remove(FAR));
    UpFlips(c, d, m, 0, Buy, [], [far]);
    Leaves(c, d, m, 0, Sell, far, [], FAR);
    UpFlips(c, f, m, 0, Sell, [], []);
    TurnKeepsUp(c, f, m, 0, Buy, [], []);
    hide Up, Ticked, Next;
  }

  /** The ask side is empty, and a bid with `qty` left stands. */
  predicate BidOnly(c: Config, d: Desk, m: nat, pos: int, o: Order, qty: int) {
    && Laid(c, d, m) && PositionOf(d.world, m) == pos && d.world.book.asks == [] && d.world.book.bids == [o]
    && o.id == d.quotes.bidId != 0 && o.qty == qty
    && PlacedBy(d.world.orders, m, o.id) && d.world.orders[o.id].side == Buy && o.id < d.world.book.nextId
  }

  /** The ask is taken whole, and the market maker waits for a second side. */
  lemma AskIsTaken(c: Config, d: Desk, m: nat)
    returns (o: Order)
    requires Usual(c) && Up(c, d, m, 0, Buy, [], [])
    ensures var e := Ticked(c, Upon(d, Hit(c, Sell, c.quoteQty)), m);
            && BidOnly(c, e, m, -c.quoteQty, o, c.quoteQty)
            && o.id in e.world.routing && e.world.routing[o.id] == m
            && e.world.lost == d.world.lost
            && Later(d, e)
  {
    var e := Upon(d, Hit(c, Sell, c.quoteQty));
    o := d.world.book.bids[0];
    assert d.world.book.bids == [o] && d.quotes.bidId != d.quotes.askId && o.id < d.world.book.nextId;
    UpFlips(c, d, m, 0, Buy, [], []);
    QuoteIsHit(c, d, m, 0, Sell, [], c.quoteQty);
    assert o.id in e.world.routing && e.world.routing[o.id] == m;
    hide Laid, PositionOf, Next, Ticked;
    Waits(c, e, m);
  }

  /** The bid is hit for one unit, which the market maker is told, and loses its route. */
  lemma BidIsHit(c: Config, d: Desk, m: nat, pos: int, o: Order)
    requires Usual(c) && c.quoteQty >= 2 && BidOnly(c, d, m, pos, o, c.quoteQty)
    requires o.id in d.world.routing && d.world.routing[o.id] == m
    ensures var e := Ticked(c, Upon(d, Hit(c, Buy, 1)), m);
            && BidOnly(c, e, m, pos + 1, o.(qty := o.qty - 1), c.quoteQty - 1)
            && o.id !in e.world.routing && e.world.lost == d.world.lost
            && Later(d, e)
  {
    var e := Upon(d, Hit(c, Buy, 1));
    LaidAccounts(c, d, m);
    hide Laid, PositionOf, Next, Ticked, QuotePx;
    HitKeepsBoard(c, d, m, Buy, o, 1);
    HitIsCredited(c, d, m, Buy, o, 1);
    Waits(c, e, m);
  }

  /** The rest of it is hit, and nobody is told. */
  lemma RestIsLost(c: Config, d: Desk, m: nat, pos: int, o: Order)
    requires Usual(c) && BidOnly(c, d, m, pos, o, c.quoteQty - 1) && o.qty > 0 && o.id !in d.world.routing
    ensures var e := Ticked(c, Upon(d, Hit(c, Buy, c.quoteQty - 1)), m);
            && Laid(c, e, m) && PositionOf(e.world, m) == pos && Beside(e, Buy) == [] && Beside(e, Sell) == []
            && e.world.lost == d.world.lost + [Loss(o.id, c.quoteQty - 1)]
            && Later(d, e)
  {
    var e := Upon(d, Hit(c, Buy, c.quoteQty - 1));
    LaidAccounts(c, d, m);
    assert PriorityBook.Remove([], d.quotes.askId) == [];
    hide Laid, PositionOf, Next, Ticked, QuotePx;
    HitKeepsBoard(c, d, m, Buy, o, c.quoteQty - 1);
    HitIsLost(c, d, m, Buy, o, c.quoteQty - 1);
    Waits(c, e, m);
  }

  function FirstHalf(c: Config): seq<Step> {
    [BacktestRuns.Remove(FAR), Hit(c, Sell, c.quoteQty), Hit(c, Buy, 1), Hit(c, Buy, c.quoteQty - 1)]
  }

  lemma PlayedFour(c: Config, d: Desk, m: nat, a: Step, b: Step, x: Step, y: Step)
    requires c.interval > 0
    ensures var e := Ticked(c, Upon(Ticked(c, Upon(d, a), m), b), m);
            Played(c, d, m, [a, b, x, y]) == Ticked(c, Upon(Ticked(c, Upon(e, x), m), y), m)
  {
    hide Ticked, Upon, Heard;
    assert [a, b, x, y] == [] + [a] + [b] + [x] + [y] && Played(c, d, m, []) == d;
    hide Played;
    PlayedThen(c, d, m, [], a);
    PlayedThen(c, d, m, [] + [a], b);
    PlayedThen(c, d, m, [] + [a] + [b], x);
    PlayedThen(c, d, m, [] + [a] + [b] + [x], y);
  }

  /** The book is empty again, and one more bid than the market maker knows of has been hit whole. */
  lemma Empties(c: Config, d: Desk, m: nat, far: Order)
    returns (x: nat)
    requires Usual(c) && c.quoteQty >= 2 && Up(c, d, m, 0, Buy, [], [far])
    requires FAR in d.world.ext && d.world.ext[FAR] == far.id
    ensures var e := Played(c, d, m, FirstHalf(c));
            && Laid(c, e, m) && PositionOf(e.world, m) == 1 - c.quoteQty
            && Beside(e, Buy) == [] && Beside(e, Sell) == []
            && e.world.lost == d.world.lost + [Loss(x, c.quoteQty - 1)] && Later(d, e)
            && PlacedBy(e.world.orders, m, x) && e.world.orders[x].side == Buy && x < e.world.book.nextId
  {
    hide Up, Laid, PositionOf, Ticked, Upon, Hit, Played, Beside;
    Alone(c, d, m, far);
    var d1 := Ticked(c, Upon(d, BacktestRuns.Remove(FAR)), m);
    var o := AskIsTaken(c, d1, m);
    var d2 := Ticked(c, Upon(d1, Hit(c, Sell, c.quoteQty)), m);
    BidIsHit(c, d2, m, -c.quoteQty, o);
    var d3 := Ticked(c, Upon(d2, Hit(c, Buy, 1)), m);
    RestIsLost(c, d3, m, 1 - c.quoteQty, o.(qty := o.qty - 1));
    var d4 := Ticked(c, Upon(d3, Hit(c, Buy, c.quoteQty - 1)), m);
    x := o.id;
    assert PlacedBy(d4.world.orders, m, x) && d4.world.orders[x].side == Buy && x < d4.world.book.nextId;
    hide Later;
    PlayedFour(c, d, m, BacktestRuns.Remove(FAR), Hit(c, Sell, c.quoteQty), Hit(c, Buy, 1),
               Hit(c, Buy, c.quoteQty - 1));
    LaterTwice(d, d1, d2);
    LaterTwice(d, d2, d3);
    LaterTwice(d, d3, d4);
  }

  /** A new far order, the quotes drawn out again, and the position brought back to flat. */
  function SecondHalf(c: Config): seq<Step>
    requires c.interval > 0 && c.quoteQty > 0
  {
    Begin(c, Buy) + Climb(c, Buy, c.quoteQty - 1)
  }

  lemma Restores(c: Config, d: Desk, m: nat)
    returns (far: Order)
    requires Usual(c) && Laid(c, d, m) && PositionOf(d.world, m) == 1 - c.quoteQty
    requires Beside(d, Buy) == [] && Beside(d, Sell) == []
    ensures var e := Played(c, d, m, SecondHalf(c));
            && Up(c, e, m, 0, Buy, [], [far]) && e.world.lost == d.world.lost && Later(d, e)
            && FAR in e.world.ext && e.world.ext[FAR] == far.id
  {
    hide Up, Laid, PositionOf, Played, Beside, Begin, Climb, Later;
    far := BeginsFrom(c, d, m, Buy);
    var e := Played(c, d, m, Begin(c, Buy));
    Climbs(c, e, m, 1 - c.quoteQty, Buy, [far], c.quoteQty - 1);
    PlayedAppend(c, d, m, Begin(c, Buy), Climb(c, Buy, c.quoteQty - 1));
    var f := Played(c, e, m, Climb(c, Buy, c.quoteQty - 1));
    LaterTwice(d, e, f);
  }

  // ----- any number of leaks -----

  /** The losses are all on buys of `m`. */
  ghost predicate BoughtUnseen(w: World, m: nat, ls: seq<Loss>) {
    forall i :: 0 <= i < |ls| ==>
      PlacedBy(w.orders, m, ls[i].order) && w.orders[ls[i].order].side == Buy && ls[i].order < w.book.nextId
  }

  function TotalLost(ls: seq<Loss>): int {
    if ls == [] then 0 else TotalLost(ls[..|ls| - 1]) + ls[|ls| - 1].qty
  }

  lemma {:induction false} OneMoreLoss(w: World, m: nat, ls: seq<Loss>, l: Loss, n: nat)
    requires PlacedBy(w.orders, m, l.order) && w.orders[l.order].side == Buy
    ensures NetLost(w.(lost := ls + [l]), m, n)
            == NetLost(w.(lost := ls), m, n) + if l.order < n then l.qty else 0
  {
    if n > 0 {
      OneMoreLoss(w, m, ls, l, n - 1);
      assert (ls + [l])[..|ls|] == ls;
      assert LostQty(ls + [l], n - 1) == LostQty(ls, n - 1) + if l.order == n - 1 then l.qty else 0;
    }
  }

  /** Unseen buys count in full. */
  lemma {:induction false} NetOfUnseen(w: World, m: nat, ls: seq<Loss>)
    requires BoughtUnseen(w, m, ls)
    ensures NetLost(w.(lost := ls), m, w.book.nextId) == TotalLost(ls)
  {
    hide NetLost;
    if ls == [] {
      NothingLostNothingMissing(w.(lost := []), m, w.book.nextId);
    } else {
      var k := |ls| - 1;
      NetOfUnseen(w, m, ls[..k]);
      OneMoreLoss(w, m, ls[..k], ls[k], w.book.nextId);
      assert ls == ls[..k] + [ls[k]];
    }
  }

  function Leak(c: Config): seq<Step>
    requires c.interval > 0 && c.quoteQty > 0
  {
    FirstHalf(c) + SecondHalf(c)
  }

  /** Flat and quoting, with `n` hits of `quoteQty - 1` that it was never told of. */
  ghost predicate Leaked(c: Config, d: Desk, m: nat, far: Order, n: nat) {
    && Up(c, d, m, 0, Buy, [], [far]) && FAR in d.world.ext && d.world.ext[FAR] == far.id
    && BoughtUnseen(d.world, m, d.world.lost) && TotalLost(d.world.lost) == n * (c.quoteQty - 1)
  }

  lemma UnseenLater(d: Desk, e: Desk, m: nat, ls: seq<Loss>)
    requires Later(d, e) && BoughtUnseen(d.world, m, ls)
    ensures BoughtUnseen(e.world, m, ls)
  {
  }

  lemma UnseenMore(w: World, m: nat, ls: seq<Loss>, x: nat, q: int)
    requires BoughtUnseen(w, m, ls) && PlacedBy(w.orders, m, x) && w.orders[x].side == Buy && x < w.book.nextId
    ensures BoughtUnseen(w, m, ls + [Loss(x, q)]) && TotalLost(ls + [Loss(x, q)]) == TotalLost(ls) + q
  {
    assert (ls + [Loss(x, q)])[..|ls|] == ls;
  }

  lemma LeaksOnce(c: Config, d: Desk, m: nat, far: Order, n: nat)
    returns (far': Order)
    requires Usual(c) && c.quoteQty >= 2 && Leaked(c, d, m, far, n)
    ensures Leaked(c, Played(c, d, m, Leak(c)), m, far', n + 1)
  {
    hide Up, Laid, PositionOf, Played, Beside, FirstHalf, SecondHalf, Later, TotalLost, BoughtUnseen;
    var x := Empties(c, d, m, far);
    var e := Played(c, d, m, FirstHalf(c));
    far' := Restores(c, e, m);
    var f := Played(c, e, m, SecondHalf(c));
    PlayedAppend(c, d, m, FirstHalf(c), SecondHalf(c));
    UnseenLater(d, e, m, d.world.lost);
    UnseenMore(e.world, m, d.world.lost, x, c.quoteQty - 1);
    UnseenLater(e, f, m, e.world.lost);
  }

  function Leaks(c: Config, n: nat): seq<Step>
    requires c.interval > 0 && c.quoteQty > 0
  {
    if n == 0 then Begin(c, Buy) else Leaks(c, n - 1) + Leak(c)
  }

  lemma {:induction false} LeaksAgain(c: Config, capacity: nat, strategies: nat, m: nat, n: nat)
    returns (far: Order)
    requires Usual(c) && c.quoteQty >= 2 && capacity >= 4 && m < strategies
    ensures Leaked(c, Played(c, Opening(capacity, strategies), m, Leaks(c, n)), m, far, n)
  {
    hide Up, Laid, PositionOf, Played, Beside, Begin, Opening, Leak;
    var o := Opening(capacity, strategies);
    if n == 0 {
      OpeningIsLaid(c, capacity, strategies, m);
      far := BeginsFrom(c, o, m, Buy);
    } else {
      hide Leaked;
      far := LeaksAgain(c, capacity, strategies, m, n - 1);
      PlayedAppend(c, o, m, Leaks(c, n - 1), Leak(c));
      far := LeaksOnce(c, Played(c, o, m, Leaks(c, n - 1)), m, far, n - 1);
    }
  }

  lemma LeakIsFromFile(c: Config)
    requires c.interval > 0 && c.quoteQty > 0
    ensures forall i :: 0 <= i < |Leak(c)| ==> FromFile(Leak(c)[i])
  {
    hide Begin, Climb;
    BeginIsFromFile(c, Buy);
    ClimbIsFromFile(c, Buy, c.quoteQty - 1);
  }

  lemma {:induction false} LeaksAreFromFile(c: Config, n: nat)
    requires c.interval > 0 && c.quoteQty > 0
    ensures forall i :: 0 <= i < |Leaks(c, n)| ==> FromFile(Leaks(c, n)[i])
  {
    if n == 0 {
      BeginIsFromFile(c, Buy);
    } else {
      hide Leak;
      LeaksAreFromFile(c, n - 1);
      LeakIsFromFile(c);
    }
  }

  /** The market maker is told it is flat; its orders have bought `n * (quoteQty - 1)`. */
  lemma LeaksAddUp(c: Config, capacity: nat, strategies: nat, m: nat, n: nat)
    requires Usual(c) && c.quoteQty >= 2 && capacity >= 4 && m < strategies
    ensures forall i :: 0 <= i < |Leaks(c, n)| ==> FromFile(Leaks(c, n)[i])
    ensures var w := Played(c, Opening(capacity, strategies), m, Leaks(c, n)).world;
            PositionOf(w, m) == 0 && Holdings(w, m, w.book.nextId) == n * (c.quoteQty - 1)
  {
    hide Laid, Stands, Played, Opening, Leaks, Backtest.Inv, QuotesOk, Banded, Holdings, NetLost, FromFile;
    var d := Played(c, Opening(capacity, strategies), m, Leaks(c, n));
    LeaksAreFromFile(c, n);
    var far := LeaksAgain(c, capacity, strategies, m, n);
    PlayedInBand(c, capacity, strategies, m, Leaks(c, n));
    NetOfUnseen(d.world, m, d.world.lost);
    assert d.world.(lost := d.world.lost) == d.world;
    PositionIsHoldings(d.world, m);
  }
}
