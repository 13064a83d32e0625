/**
  What the market maker's quotes are: when it re-quotes, at what prices, and that in every replay none
  of its resting quotes has fallen behind the mid it was last shown.
 */
module MarketMakerQuotes {
  import opened Orders
  import opened PriorityBook
  import opened BookInvariant
  import opened BookRuns
  import opened Backtest
  import opened BacktestLaws
  import opened BacktestRuns
  import opened BacktestTheorems
  import opened MarketMakers
  import opened MarketMakerBand
  import P = Portfolios

  // ----- prices of resting orders never change -----

  /** Every order of `r` is `q`'s, or the new one at its price. */
  predicate DrawnOrNew(q: seq<Order>, r: seq<Order>, id: nat, price: int) {
    forall i :: 0 <= i < |r| ==>
      || (r[i].id == id && r[i].price == price)
      || exists j :: 0 <= j < |q| && q[j].id == r[i].id && q[j].price == r[i].price
  }

  lemma MatchDraws(b: Book, side: Side, price: int, qty: int)
    requires PriorityBook.Inv(b)
    ensures var q := SideOf(b, side.Opposite());
            DrawnFrom(q, Fill(q, side, b.nextId, price, qty).rest)
  {
    var opp := side.Opposite();
    var q := SideOf(b, opp);
    InvBySide(b, side);
    hide Fill, PriorityBook.Inv;
    WellTaggedIsPositive(opp, q, b.nextId, b.nextTs);
    FillRest(q, side, b.nextId, price, qty);
    TailKeeps(opp, q, Fill(q, side, b.nextId, price, qty).rest, b.nextId, b.nextTs);
  }

  lemma InsertDraws(side: Side, q: seq<Order>, o: Order)
    ensures DrawnOrNew(q, Insert(side, q, o), o.id, o.price)
  {
    hide Insert;
    InsertAt(side, q, o);
    var k := Position(side, q, o.price);
    var r := Spliced(q, k, o);
    forall i | 0 <= i < |r|
      ensures r[i] == o || exists j :: 0 <= j < |q| && q[j] == r[i]
    {
      if i != k {
        assert q[if i < k then i else i - 1] == r[i];
      }
    }
  }

  /** A placement leaves resting orders at their prices, and rests at its own. */
  lemma PlaceDraws(b: Book, side: Side, price: int, qty: int)
    requires PriorityBook.Inv(b)
    ensures var r := Place(b, side, price, qty).book;
            && DrawnFrom(SideOf(b, side.Opposite()), SideOf(r, side.Opposite()))
            && DrawnOrNew(SideOf(b, side), SideOf(r, side), b.nextId, price)
  {
    MatchDraws(b, side, price, qty);
    var f := Fill(SideOf(b, side.Opposite()), side, b.nextId, price, qty);
    InsertDraws(side, SideOf(b, side), Order(b.nextId, side, price, f.left, b.nextTs));
    hide Fill, Insert, PriorityBook.Inv;
  }

  // ----- the market maker's orders around a mid -----

  /** The orders of `m` in `q` are priced at `px`. */
  predicate PricedAt(q: seq<Order>, orders: map<nat, Info>, m: nat, px: int) {
    forall i :: 0 <= i < |q| && PlacedBy(orders, m, q[i].id) ==> q[i].price == px
  }

  /** Every resting bid of `m` is a half-spread below `mid`, and every resting ask a half-spread above. */
  predicate PricedAround(c: Config, w: World, m: nat, mid: int) {
    PricedAt(w.book.bids, w.orders, m, mid - c.spread) && PricedAt(w.book.asks, w.orders, m, mid + c.spread)
  }

  function QuotePrice(c: Config, mid: int, side: Side): int {
    if side.Buy? then mid - c.spread else mid + c.spread
  }

  lemma PricedBySide(c: Config, w: World, m: nat, mid: int, side: Side)
    ensures PricedAround(c, w, m, mid) <==>
              && PricedAt(SideOf(w.book, side), w.orders, m, QuotePrice(c, mid, side))
              && PricedAt(SideOf(w.book, side.Opposite()), w.orders, m, QuotePrice(c, mid, side.Opposite()))
  {
    hide PricedAt;
  }

  lemma DrawnStaysPriced(q: seq<Order>, r: seq<Order>, orders: map<nat, Info>, m: nat, px: int)
    requires PricedAt(q, orders, m, px) && DrawnFrom(q, r)
    ensures PricedAt(r, orders, m, px)
  {
    hide PlacedBy;
  }

  /** With one order more on record, which is not queued yet. */
  lemma RecordStaysPriced(q: seq<Order>, orders: map<nat, Info>, m: nat, px: int, id: nat, info: Info)
    requires PricedAt(q, orders, m, px) && forall i :: 0 <= i < |q| ==> q[i].id != id
    ensures PricedAt(q, orders[id := info], m, px)
  {
  }

  lemma DrawnOrNewStaysPriced(q: seq<Order>, r: seq<Order>, orders: map<nat, Info>, m: nat, px: int,
                              id: nat, price: int)
    requires PricedAt(q, orders, m, px) && DrawnOrNew(q, r, id, price)
    requires PlacedBy(orders, m, id) ==> price == px
    ensures PricedAt(r, orders, m, px)
  {
    hide PlacedBy;
  }

  lemma PlacedStaysPriced(c: Config, w: World, v: World, m: nat, mid: int,
                          owner: Owner, side: Side, price: int, qty: int)
    requires PriorityBook.Inv(w.book) && Submitted(w, v, owner, side, price, qty) && PricedAround(c, w, m, mid)
    requires owner == Strategy(m) ==> price == QuotePrice(c, mid, side)
    ensures PricedAround(c, v, m, mid)
  {
    hide Place, PricedAt, PricedAround;
    var opp, id, info := side.Opposite(), w.book.nextId, Info(owner, side, qty);
    PricedBySide(c, w, m, mid, side);
    PricedBySide(c, v, m, mid, side);
    InvBySide(w.book, side);
    PlaceDraws(w.book, side, price, qty);
    RecordStaysPriced(SideOf(w.book, side), w.orders, m, QuotePrice(c, mid, side), id, info);
    RecordStaysPriced(SideOf(w.book, opp), w.orders, m, QuotePrice(c, mid, opp), id, info);
    DrawnStaysPriced(SideOf(w.book, opp), SideOf(v.book, opp), v.orders, m, QuotePrice(c, mid, opp));
    DrawnOrNewStaysPriced(SideOf(w.book, side), SideOf(v.book, side), v.orders, m, QuotePrice(c, mid, side), id, price);
  }

  lemma CancelStaysPriced(c: Config, w: World, v: World, m: nat, mid: int, x: nat)
    requires PriorityBook.Inv(w.book) && v.book == Cancel(w.book, x) && v.orders == w.orders
    requires PricedAround(c, w, m, mid)
    ensures PricedAround(c, v, m, mid)
  {
    hide PricedAt, Rests;
    var b := w.book;
    RemoveKeeps(Buy, b.bids, x, b.nextId, b.nextTs);
    RemoveKeeps(Sell, b.asks, x, b.nextId, b.nextTs);
    DrawnStaysPriced(b.bids, PriorityBook.Remove(b.bids, x), w.orders, m, mid - c.spread);
    DrawnStaysPriced(b.asks, PriorityBook.Remove(b.asks, x), w.orders, m, mid + c.spread);
  }

  lemma NextStaysPriced(c: Config, w: World, m: nat, mid: int, step: Step)
    requires Backtest.Inv(w) && PricedAround(c, w, m, mid)
    requires step.Quote? && step.strategy == m ==> step.price == QuotePrice(c, mid, step.side)
    ensures PricedAround(c, Next(w, step), m, mid)
  {
    hide Place, PriorityBook.Inv, PricedAround, ExoCredits, OwnCredits, Losses, Deliver, ExoRouting, Cancel, Rests, Run;
    var v := Next(w, step);
    match step
    case Add(side, price, qty, extId) => PlacedStaysPriced(c, w, v, m, mid, Exogenous, side, price, qty);
    case Remove(extId) =>
      if extId in w.ext {
        CancelStaysPriced(c, w, v, m, mid, w.ext[extId]);
      }
    case TradePrint(price) => PrintStaysPriced(c, w, m, mid, price);
    case Quote(s, side, price, qty) => PlacedStaysPriced(c, w, v, m, mid, Strategy(s), side, price, qty);
    case Pull(s, id) =>
      OwnCancelKeepsInv(w, s, id);
      CancelStaysPriced(c, w, v, m, mid, id);
  }

  lemma PrintStaysPriced(c: Config, w: World, m: nat, mid: int, price: int)
    ensures PricedAround(c, Print(w, price), m, mid) <==> PricedAround(c, w, m, mid)
  {
  }

  // ----- a re-quote -----

  /** With both quotes pulled, nothing of the market maker's rests. */
  lemma NothingRests(c: Config, d: Desk, m: nat, mid: int)
    requires DeskInv(c, d, m) && d.quotes.bidId == 0 && d.quotes.askId == 0
    ensures PricedAround(c, d.world, m, mid)
  {
    hide PriorityBook.Inv, Resting, Run, Attributed, CreditsOk, AccountsOk, HasId;
    NoOrderZero(d.world);
    forall side, i | 0 <= i < |SideOf(d.world.book, side)|
      ensures !PlacedBy(d.world.orders, m, SideOf(d.world.book, side)[i].id)
    {
      QueuedRests(d.world.book, side, i);
    }
    assert forall i :: 0 <= i < |d.world.book.bids| ==> SideOf(d.world.book, Buy)[i] == d.world.book.bids[i];
    assert forall i :: 0 <= i < |d.world.book.asks| ==> SideOf(d.world.book, Sell)[i] == d.world.book.asks[i];
  }

  lemma QueuedRests(b: Book, side: Side, i: nat)
    requires PriorityBook.Inv(b) && i < |SideOf(b, side)|
    ensures Resting(b, SideOf(b, side)[i].id) > 0
  {
    hide PriorityBook.Inv, Resting;
    assert HasId(SideOf(b, side), SideOf(b, side)[i].id);
    HasIdRests(b, side, SideOf(b, side)[i].id);
  }

  lemma BidStaysPriced(c: Config, d: Desk, m: nat, mid: int, pos: int)
    requires Backtest.Inv(d.world) && PricedAround(c, d.world, m, mid)
    ensures PricedAround(c, QuoteBid(c, d, m, mid, pos).world, m, mid)
  {
    hide Backtest.Inv, PricedAround, Next, QuoteBid;
    QuotesAreSteps(c, d, m, mid, pos);
    if pos <= c.limit {
      NextStaysPriced(c, d.world, m, mid, Quote(m, Buy, mid - c.spread, c.quoteQty));
    }
  }

  lemma AskStaysPriced(c: Config, d: Desk, m: nat, mid: int, pos: int)
    requires Backtest.Inv(d.world) && PricedAround(c, d.world, m, mid)
    ensures PricedAround(c, QuoteAsk(c, d, m, mid, pos).world, m, mid)
  {
    hide Backtest.Inv, PricedAround, Next, QuoteAsk;
    QuotesAreSteps(c, d, m, mid, pos);
    if pos >= -c.limit {
      NextStaysPriced(c, d.world, m, mid, Quote(m, Sell, mid + c.spread, c.quoteQty));
    }
  }

  lemma RequoteIsPriced(c: Config, d: Desk, m: nat, mid: int)
    requires DeskInv(c, d, m)
    ensures PricedAround(c, PlaceQuotes(c, PullQuotes(d, m), m, mid).world, m, mid)
  {
    hide Backtest.Inv, QuotesOk, Banded, PullBid, PullAsk, QuoteBid, QuoteAsk, PositionOf, PricedAround;
    var a, b := PullBid(d, m), PullQuotes(d, m);
    var pos := PositionOf(b.world, m);
    RequoteStaysInBand(c, d, m, mid);
    PullBidKeeps(c, d, m);
    PullAskKeeps(c, a, m);
    NothingRests(c, b, m, mid);
    BidStaysPriced(c, b, m, mid, pos);
    AskStaysPriced(c, QuoteBid(c, b, m, mid, pos), m, mid, pos);
  }

  /** A pull forgets the quotes and leaves position, orders on record and counters as they were. */
  lemma PullsParts(d: Desk, m: nat)
    ensures var e := PullQuotes(d, m);
            && e.quotes == d.quotes.(bidId := 0, askId := 0)
            && e.world.orders == d.world.orders && e.world.book.nextId == d.world.book.nextId
            && PositionOf(e.world, m) == PositionOf(d.world, m)
  {
    hide Rests;
  }

  lemma OwnPlaceCounts(w: World, m: nat, side: Side, price: int, qty: int)
    ensures var v := OwnPlace(w, m, side, price, qty);
            && v.book.nextId == w.book.nextId + 1
            && v.orders == w.orders[w.book.nextId := Info(Strategy(m), side, qty)]
  {
    hide Fill, Insert, OwnCredits, Losses, Deliver;
  }

  /**
    What a re-quote puts up, seen from before it: a bid under the next id if the position is at most the
    limit, an ask under the id after if it is at least minus the limit, each for the quote size.
   */
  lemma RequotePlaces(c: Config, d: Desk, m: nat, mid: int)
    ensures var e := PlaceQuotes(c, PullQuotes(d, m), m, mid);
            var pos, n := PositionOf(d.world, m), d.world.book.nextId;
            var k := if pos <= c.limit then n + 1 else n;
            && e.quotes == Quotes(if pos <= c.limit then n else 0, if pos >= -c.limit then k else 0, mid,
                                  d.quotes.ticks)
            && e.world.book.nextId == (if pos >= -c.limit then k + 1 else k)
            && (pos <= c.limit ==> n in e.world.orders && e.world.orders[n] == Info(Strategy(m), Buy, c.quoteQty))
            && (pos >= -c.limit ==> k in e.world.orders && e.world.orders[k] == Info(Strategy(m), Sell, c.quoteQty))
  {
    hide OwnPlace, OwnCancel, PositionOf, PullQuotes;
    var b := PullQuotes(d, m);
    var pos := PositionOf(d.world, m);
    PullsParts(d, m);
    var bid := QuoteBid(c, b, m, mid, pos);
    OwnPlaceCounts(b.world, m, Buy, mid - c.spread, c.quoteQty);
    OwnPlaceCounts(bid.world, m, Sell, mid + c.spread, c.quoteQty);
  }

  // ----- when it re-quotes -----

  /** The mid last quoted is the one shown, or less than the threshold away from it. */
  predicate FollowsMid(c: Config, q: Quotes, mid: int) {
    q.lastMid == mid || (q.lastMid != 0 && -c.threshold < mid - q.lastMid < c.threshold)
  }

  /**
    What a tick does: nothing while a side is empty; otherwise it is counted, and the market maker
    re-quotes if it has no mid yet, if the mid has moved by the threshold, or if the count is a multiple
    of the interval, and only then.
   */
  lemma TickRequotesIff(c: Config, d: Desk, m: nat, top: BookTop)
    requires c.interval > 0
    ensures var e := OnTick(c, d, m, top);
            var t, moved := d.quotes.ticks + 1, P.Abs(top.mid - d.quotes.lastMid);
            var pos, n := PositionOf(d.world, m), d.world.book.nextId;
            && (top.bidPx == 0 || top.askPx == 0 ==> e == d)
            && (top.bidPx != 0 && top.askPx != 0 ==>
                  && e.quotes.ticks == t && FollowsMid(c, e.quotes, top.mid)
                  && if d.quotes.lastMid == 0 || moved >= c.threshold || t % c.interval == 0 then
                       && e.quotes.lastMid == top.mid
                       && e.quotes.bidId == (if pos <= c.limit then n else 0)
                       && e.quotes.askId == (if pos < -c.limit then 0 else if pos <= c.limit then n + 1 else n)
                       && (pos <= c.limit ==>
                             n in e.world.orders && e.world.orders[n] == Info(Strategy(m), Buy, c.quoteQty))
                       && (pos >= -c.limit ==>
                             e.quotes.askId in e.world.orders
                             && e.world.orders[e.quotes.askId] == Info(Strategy(m), Sell, c.quoteQty))
                     else e.world == d.world && e.quotes == d.quotes.(ticks := t))
  {
    hide PullQuotes, PlaceQuotes, PositionOf;
    RequotePlaces(c, d.(quotes := d.quotes.(ticks := d.quotes.ticks + 1)), m, top.mid);
  }

  // ----- every replay -----

  lemma TickIsPriced(c: Config, d: Desk, m: nat, top: BookTop)
    requires c.interval > 0 && DeskInv(c, d, m) && PricedAround(c, d.world, m, d.quotes.lastMid)
    ensures var e := OnTick(c, d, m, top);
            PricedAround(c, e.world, m, e.quotes.lastMid)
  {
    hide Backtest.Inv, QuotesOk, Banded, PullQuotes, PlaceQuotes, PricedAround;
    var counted := d.(quotes := d.quotes.(ticks := d.quotes.ticks + 1));
    RememberMid(c, d, m, top.mid);
    RequoteIsPriced(c, counted, m, top.mid);
    RemembersMid(c, PullQuotes(counted, m), m, top.mid);
  }

  lemma RemembersMid(c: Config, d: Desk, m: nat, mid: int)
    ensures PlaceQuotes(c, d, m, mid).quotes.lastMid == mid
  {
    hide OwnPlace, PositionOf;
  }

  lemma MoveIsPriced(c: Config, d: Desk, m: nat, move: Move)
    requires c.interval > 0 && DeskInv(c, d, m) && PricedAround(c, d.world, m, d.quotes.lastMid)
    requires Allowed(|d.world.accounts|, m, move)
    ensures var e := Moved(c, d, m, move);
            PricedAround(c, e.world, m, e.quotes.lastMid)
  {
    hide Backtest.Inv, QuotesOk, Banded, OnTick, Next, PricedAround;
    match move
    case Tick(top) => TickIsPriced(c, d, m, top);
    case Elsewhere(step) => NextStaysPriced(c, d.world, m, d.quotes.lastMid, step);
  }

  lemma OpeningIsPriced(c: Config, capacity: nat, strategies: nat, m: nat)
    ensures PricedAround(c, Opening(capacity, strategies).world, m, 0)
  {
  }

  /** In every reachable state, each resting quote is a half-spread from the mid last quoted, on its side. */
  lemma {:induction false} QuotesSurroundTheMid(c: Config, capacity: nat, strategies: nat, m: nat, moves: seq<Move>)
    requires c.interval > 0 && m < strategies
    requires forall i :: 0 <= i < |moves| ==> Allowed(strategies, m, moves[i])
    ensures var d := Replayed(c, Opening(capacity, strategies), m, moves);
            PricedAround(c, d.world, m, d.quotes.lastMid)
  {
    hide DeskInv, Moved, Allowed, PricedAround;
    if moves == [] {
      OpeningIsPriced(c, capacity, strategies, m);
    } else {
      hide Opening;
      var n := |moves| - 1;
      QuotesSurroundTheMid(c, capacity, strategies, m, moves[..n]);
      InventoryIsBounded(c, capacity, strategies, m, moves[..n]);
      MoveIsPriced(c, Replayed(c, Opening(capacity, strategies), m, moves[..n]), m, moves[n]);
    }
  }

  /** The order is priced at `px`, or less than the threshold away from it. */
  predicate Near(c: Config, price: int, px: int) {
    price == px || -c.threshold < price - px < c.threshold
  }

  lemma NearBecauseFollowing(c: Config, w: World, m: nat, q: Quotes, mid: int)
    requires PricedAround(c, w, m, q.lastMid) && FollowsMid(c, q, mid)
    ensures forall i :: 0 <= i < |w.book.bids| && PlacedBy(w.orders, m, w.book.bids[i].id) ==>
              Near(c, w.book.bids[i].price, mid - c.spread)
    ensures forall i :: 0 <= i < |w.book.asks| && PlacedBy(w.orders, m, w.book.asks[i].id) ==>
              Near(c, w.book.asks[i].price, mid + c.spread)
  {
  }

  /**
    No stale quotes: in every replay, after every tick that shows a two-sided book, each resting bid of
    the market maker is a half-spread below the mid shown and each resting ask a half-spread above it, or
    less than the threshold off.
   */
  lemma NoStaleQuotes(c: Config, capacity: nat, strategies: nat, m: nat, moves: seq<Move>, top: BookTop)
    requires c.interval > 0 && m < strategies && top.bidPx != 0 && top.askPx != 0
    requires forall i :: 0 <= i < |moves| ==> Allowed(strategies, m, moves[i])
    ensures var d := Replayed(c, Opening(capacity, strategies), m, moves + [Tick(top)]);
            var w := d.world;
            && FollowsMid(c, d.quotes, top.mid) && (top.mid != 0 ==> d.quotes.lastMid != 0)
            && (forall i :: 0 <= i < |w.book.bids| && PlacedBy(w.orders, m, w.book.bids[i].id) ==>
                  Near(c, w.book.bids[i].price, top.mid - c.spread))
            && (forall i :: 0 <= i < |w.book.asks| && PlacedBy(w.orders, m, w.book.asks[i].id) ==>
                  Near(c, w.book.asks[i].price, top.mid + c.spread))
  {
    hide OnTick, Opening, PricedAround, PositionOf;
    var all := moves + [Tick(top)];
    assert all[..|all| - 1] == moves && Allowed(strategies, m, Tick(top));
    hide Allowed;
    var e := Replayed(c, Opening(capacity, strategies), m, moves);
    var d := Replayed(c, Opening(capacity, strategies), m, all);
    assert d == OnTick(c, e, m, top);
    hide Replayed;
    QuotesSurroundTheMid(c, capacity, strategies, m, all);
    TickRequotesIff(c, e, m, top);
    NearBecauseFollowing(c, d.world, m, d.quotes, top.mid);
  }
}
