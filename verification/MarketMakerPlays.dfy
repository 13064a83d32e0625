/**
  Plays on a small board: at most one exogenous order and the market maker's quote on each side, at
  the market maker's own prices. Either end of the inventory band is reached, whatever the
  re-quoting interval and threshold.
 */
module MarketMakerPlays {
  import opened Orders
  import opened PriorityBook
  import opened BookInvariant
  import opened BookRuns
  import opened Backtest
  import opened BacktestRuns
  import opened BacktestTheorems
  import opened MarketMakers
  import opened MarketMakerBand
  import opened MarketMakerRuns
  import P = Portfolios
  import W = WrapArithmetic

  // ----- placements that do not trade -----

  predicate DoesNotCross(b: Book, side: Side, price: int) {
    var q := SideOf(b, side.Opposite());
    q == [] || !Crosses(side, price, q[0].price)
  }

  lemma QuietPlace(b: Book, side: Side, price: int, qty: int)
    requires qty > 0 && b.free > 0 && DoesNotCross(b, side, price)
    ensures var o := Order(b.nextId, side, price, qty, b.nextTs);
            Place(b, side, price, qty)
            == Placement(WithSide(b, side, Insert(side, SideOf(b, side), o))
                         .(nextId := b.nextId + 1, nextTs := b.nextTs + 1, free := b.free - 1), b.nextId, [], 0)
  {
  }

  lemma {:induction false} InsertLast(side: Side, q: seq<Order>, o: Order)
    requires forall i :: 0 <= i < |q| ==> q[i].price == o.price
    ensures Insert(side, q, o) == q + [o]
  {
    if q != [] {
      InsertLast(side, q[1..], o);
      assert [q[0]] + (q[1..] + [o]) == q + [o];
    }
  }

  lemma QuietOwn(w: World, m: nat, side: Side, price: int, qty: int)
    requires m < |w.accounts| && qty > 0 && w.book.free > 0 && DoesNotCross(w.book, side, price)
    ensures var v := OwnPlace(w, m, side, price, qty);
            && v.book == Place(w.book, side, price, qty).book
            && PositionOf(v, m) == PositionOf(w, m) && |v.accounts| == |w.accounts|
            && v.routing == w.routing[w.book.nextId := m] && v.ext == w.ext && v.lost == w.lost
            && v.orders == w.orders[w.book.nextId := Info(Strategy(m), side, qty)]
  {
    hide Place;
    QuietPlace(w.book, side, price, qty);
    assert w.lost + [] == w.lost;
  }

  lemma QuietAdd(w: World, m: nat, side: Side, price: int, qty: int, extId: nat)
    requires m < |w.accounts| && qty > 0 && w.book.free > 0 && DoesNotCross(w.book, side, price)
    ensures var v := ExoAdd(w, side, price, qty, extId);
            && v.book == Place(w.book, side, price, qty).book
            && PositionOf(v, m) == PositionOf(w, m) && |v.accounts| == |w.accounts|
            && v.routing == w.routing && v.lost == w.lost
            && v.ext == (if extId != 0 then w.ext[extId := w.book.nextId] else w.ext)
            && v.orders == w.orders[w.book.nextId := Info(Exogenous, side, qty)]
  {
    hide Place;
    QuietPlace(w.book, side, price, qty);
    assert w.lost + [] == w.lost;
  }

  lemma OwnCancelIs(w: World, m: nat, id: nat)
    requires m < |w.accounts|
    ensures var v := OwnCancel(w, m, id);
            && v.book == Cancel(w.book, id) && PositionOf(v, m) == PositionOf(w, m)
            && |v.accounts| == |w.accounts| && v.ext == w.ext && v.lost == w.lost && v.orders == w.orders
            && (forall x :: x != id && x in w.routing ==> x in v.routing && v.routing[x] == w.routing[x])
  {
    hide Rests;
  }

  /** A cancel removes the id from both sides, wherever it is. */
  lemma CancelIs(b: Book, id: nat)
    requires PriorityBook.Inv(b)
    ensures var r := Cancel(b, id);
            && PriorityBook.Inv(r) && r.nextId == b.nextId && r.nextTs == b.nextTs
            && r.bids == PriorityBook.Remove(b.bids, id) && r.asks == PriorityBook.Remove(b.asks, id)
            && r.free + |All(r)| == b.free + |All(b)|
  {
    CancelKeepsInv(b, id);
    CancelFreesOne(b, id);
    if !Rests(b, id) {
      assert forall i :: 0 <= i < |b.bids| ==> All(b)[i] == b.bids[i];
      assert forall i :: 0 <= i < |b.asks| ==> All(b)[|b.bids| + i] == b.asks[i];
      RemoveAbsent(b.bids, id);
      RemoveAbsent(b.asks, id);
    }
  }

  /** Taking one id out of a queue shortens it by at most one. */
  lemma RemoveShortens(q: seq<Order>, id: nat)
    requires DistinctIds(q)
    ensures |q| <= |PriorityBook.Remove(q, id)| + 1
  {
    if k :| 0 <= k < |q| && q[k].id == id {
      RemoveAt(q, k);
    } else {
      RemoveAbsent(q, id);
    }
  }

  lemma RemoveKeepsAll(q: seq<Order>, id: nat)
    requires DistinctIds(q)
    ensures forall i :: 0 <= i < |PriorityBook.Remove(q, id)| ==> PriorityBook.Remove(q, id)[i] in q
  {
    if k :| 0 <= k < |q| && q[k].id == id {
      RemoveAt(q, k);
    } else {
      RemoveAbsent(q, id);
    }
  }

  // ----- the board -----

  /** For a half-spread `s` the market maker bids 2 and asks 2s + 2, around a mid of s + 2. */
  function QuotePx(c: Config, side: Side): int {
    if side.Buy? then 2 else 2 * c.spread + 2
  }

  function MidPx(c: Config): int {
    c.spread + 2
  }

  /** A positive half-spread within the range of prices, and an interval. */
  predicate Workable(c: Config) {
    c.spread > 0 && c.interval > 0 && QuotePx(c, Sell) < INT64_MAX
  }

  /** It also quotes something, at least when flat. */
  predicate Usual(c: Config) {
    Workable(c) && c.limit >= 0 && c.quoteQty > 0
  }

  /** What is queued on a side beside the market maker's quote. */
  function Beside(d: Desk, side: Side): seq<Order> {
    PriorityBook.Remove(SideOf(d.world.book, side), Same(d.quotes, side))
  }

  /** One side: at the quote price, with at most one order beside the quote `same`. */
  predicate QueueLaid(c: Config, side: Side, q: seq<Order>, same: nat, other: nat) {
    && |PriorityBook.Remove(q, same)| <= 1
    && forall i :: 0 <= i < |q| ==> q[i].price == QuotePx(c, side) && q[i].id != 0 && q[i].id != other
  }

  predicate SideLaid(c: Config, d: Desk, side: Side) {
    QueueLaid(c, side, SideOf(d.world.book, side), Same(d.quotes, side), Other(d.quotes, side))
  }

  predicate IdsLaid(q: Quotes, nextId: nat) {
    q.bidId < nextId && q.askId < nextId && (q.bidId == 0 || q.bidId != q.askId)
  }

  predicate Laid(c: Config, d: Desk, m: nat) {
    var b := d.world.book;
    && m < |d.world.accounts| && PriorityBook.Inv(b) && b.free + |All(b)| >= 4
    && SideLaid(c, d, Buy) && SideLaid(c, d, Sell) && IdsLaid(d.quotes, b.nextId)
  }

  predicate BothSided(d: Desk) {
    d.world.book.bids != [] && d.world.book.asks != []
  }

  /** Which quotes the inventory limit allows. */
  predicate QuotedAt(c: Config, pos: int, side: Side) {
    if side.Buy? then pos <= c.limit else pos >= -c.limit
  }

  /** A whole quote of the market maker, routed to it. */
  predicate Mine(c: Config, d: Desk, m: nat, side: Side, o: Order) {
    && o.id == Same(d.quotes, side) != 0 && o.qty == c.quoteQty
    && o.id in d.world.routing && d.world.routing[o.id] == m
    && PlacedBy(d.world.orders, m, o.id) && d.world.orders[o.id].side == side
  }

  /** The quote of a side stands behind `x` if the limit allows it; else only `x` does. */
  predicate Stands(c: Config, d: Desk, m: nat, pos: int, side: Side, x: seq<Order>) {
    var q := SideOf(d.world.book, side);
    if QuotedAt(c, pos, side) then |q| == |x| + 1 && q[..|x|] == x && Mine(c, d, m, side, q[|x|])
    else q == x && Same(d.quotes, side) == 0
  }

  /** Both quotes are up: on `side` behind the exogenous orders `x`, on the other side behind `y`. */
  predicate Up(c: Config, d: Desk, m: nat, pos: int, side: Side, x: seq<Order>, y: seq<Order>) {
    && Laid(c, d, m) && PositionOf(d.world, m) == pos
    && Stands(c, d, m, pos, side, x) && Stands(c, d, m, pos, side.Opposite(), y)
  }

  /** The external ids of the exogenous orders. */
  const NEAR: nat := 7

  const FAR: nat := 8

  /** Orders already placed keep their owner and side. */
  predicate KeepsOrders(w: World, v: World) {
    forall id :: id in w.orders && id < w.book.nextId ==> id in v.orders && v.orders[id] == w.orders[id]
  }

  predicate Later(d: Desk, e: Desk) {
    KeepsOrders(d.world, e.world) && e.world.book.nextId >= d.world.book.nextId
  }

  lemma LaterTwice(d: Desk, e: Desk, f: Desk)
    requires Later(d, e) && Later(e, f)
    ensures Later(d, f)
  {
  }

  /** What a play without losses leaves as it was. */
  predicate Grown(d: Desk, e: Desk) {
    && e.world.lost == d.world.lost && Later(d, e)
    && (FAR in d.world.ext ==> FAR in e.world.ext && e.world.ext[FAR] == d.world.ext[FAR])
  }

  predicate Keeps(d: Desk, e: Desk) {
    Grown(d, e) && e.world.ext == d.world.ext
  }

  lemma GrownTwice(d: Desk, e: Desk, f: Desk)
    requires Grown(d, e) && Grown(e, f)
    ensures Grown(d, f)
  {
    hide Later;
    LaterTwice(d, e, f);
  }

  lemma KeepsTwice(d: Desk, e: Desk, f: Desk)
    requires Keeps(d, e) && Keeps(e, f)
    ensures Keeps(d, f)
  {
    hide Grown;
    GrownTwice(d, e, f);
  }

  lemma SideBySide(c: Config, d: Desk, m: nat, side: Side)
    ensures Laid(c, d, m) <==>
              && m < |d.world.accounts| && PriorityBook.Inv(d.world.book)
              && d.world.book.free + |All(d.world.book)| >= 4
              && SideLaid(c, d, side) && SideLaid(c, d, side.Opposite()) && IdsLaid(d.quotes, d.world.book.nextId)
  {
    hide PriorityBook.Inv, All, SideLaid, IdsLaid;
  }

  lemma SideFacts(b: Book, q: Quotes, side: Side)
    requires PriorityBook.Inv(b)
    ensures SideInv(side, SideOf(b, side), b.nextId, b.nextTs)
    ensures Other(q, side) == Same(q, side.Opposite()) && Other(q, side.Opposite()) == Same(q, side)
    ensures |All(b)| == |SideOf(b, side)| + |SideOf(b, side.Opposite())|
  {
  }

  /** A placement at the quote price does not trade. */
  lemma QuotePriceIsQuiet(c: Config, d: Desk, m: nat, side: Side)
    requires c.spread > 0 && Laid(c, d, m)
    ensures DoesNotCross(d.world.book, side, QuotePx(c, side))
  {
    hide PriorityBook.Inv, All, PriorityBook.Remove;
    SideBySide(c, d, m, side);
  }

  lemma StandsBeside(c: Config, d: Desk, m: nat, pos: int, side: Side, x: seq<Order>)
    requires Laid(c, d, m) && Stands(c, d, m, pos, side, x)
    ensures Beside(d, side) == x
  {
    hide All;
    SideBySide(c, d, m, side);
    SideFacts(d.world.book, d.quotes, side);
    var q := SideOf(d.world.book, side);
    if QuotedAt(c, pos, side) {
      RemoveAt(q, |x|);
      assert q[|x| + 1..] == [] && q[..|x|] + [] == x;
    } else {
      RemoveAbsent(q, 0);
    }
  }

  lemma SlotFree(c: Config, d: Desk, m: nat, side: Side)
    requires Laid(c, d, m) && (Same(d.quotes, side) == 0 || Beside(d, side) == [])
    ensures d.world.book.free > 0
  {
    hide All;
    var b := d.world.book;
    SideBySide(c, d, m, side);
    SideFacts(b, d.quotes, side);
    SideFacts(b, d.quotes, side.Opposite());
    RemoveShortens(SideOf(b, side), Same(d.quotes, side));
    RemoveShortens(SideOf(b, side.Opposite()), Same(d.quotes, side.Opposite()));
    if Same(d.quotes, side) == 0 {
      RemoveAbsent(SideOf(b, side), 0);
    }
  }

  // ----- the market maker's turn -----

  function PullSide(d: Desk, m: nat, side: Side): Desk {
    if side.Buy? then PullBid(d, m) else PullAsk(d, m)
  }

  /** The rest of the desk, seen from the other side. */
  predicate SameBeyond(d: Desk, e: Desk, m: nat, side: Side) {
    && SideOf(e.world.book, side.Opposite()) == SideOf(d.world.book, side.Opposite())
    && Other(e.quotes, side) == Other(d.quotes, side)
    && PositionOf(e.world, m) == PositionOf(d.world, m)
    && e.quotes.ticks == d.quotes.ticks
  }

  lemma PullsQueue(c: Config, side: Side, q: seq<Order>, same: nat, other: nat)
    requires QueueLaid(c, side, q, same, other) && DistinctIds(q)
    ensures var r := PriorityBook.Remove(q, same);
            QueueLaid(c, side, r, 0, other) && PriorityBook.Remove(r, 0) == r
  {
    RemoveKeepsAll(q, same);
    RemoveAbsent(PriorityBook.Remove(q, same), 0);
  }

  /** The quote of a side is taken back, wherever it stood. */
  lemma PullsSide(c: Config, d: Desk, m: nat, side: Side)
    requires Laid(c, d, m)
    ensures var e := PullSide(d, m, side);
            && Laid(c, e, m) && Same(e.quotes, side) == 0 && SideOf(e.world.book, side) == Beside(d, side)
            && SameBeyond(d, e, m, side) && Keeps(d, e)
  {
    var b, id, other := d.world.book, Same(d.quotes, side), side.Opposite();
    var q, e := SideOf(b, side), PullSide(d, m, side);
    hide Cancel, PriorityBook.Inv, All, PriorityBook.Remove, Laid, OwnCancel;
    SideBySide(c, d, m, side);
    SideBySide(c, e, m, side);
    SideFacts(b, d.quotes, side);
    if id == 0 {
      RemoveAbsent(q, 0);
    } else {
      OwnCancelIs(d.world, m, id);
      CancelIs(b, id);
      RemoveAbsent(SideOf(b, other), id);
      PullsQueue(c, side, q, id, Other(d.quotes, side));
    }
  }

  /** A new order at the end of a queue, as the quote of its side or beside it. */
  lemma RemoveFromLonger(q: seq<Order>, o: Order, id: nat)
    requires DistinctIds(q) && forall i :: 0 <= i < |q| ==> q[i].id != o.id
    ensures PriorityBook.Remove(q + [o], id) == if o.id == id then q else PriorityBook.Remove(q, id) + [o]
  {
    var r := q + [o];
    if o.id == id {
      RemoveAt(r, |q|);
      assert r[..|q|] + r[|q| + 1..] == q;
    } else if k :| 0 <= k < |q| && q[k].id == id {
      RemoveAt(r, k);
      RemoveAt(q, k);
      assert r[..k] + r[k + 1..] == q[..k] + q[k + 1..] + [o];
    } else {
      RemoveAbsent(r, id);
      RemoveAbsent(q, id);
    }
  }

  /** The quote of a side, if the limit allows it. */
  function QuoteSide(c: Config, d: Desk, m: nat, pos: int, side: Side): Desk {
    if QuotedAt(c, pos, side) then Quoted(d, m, side, QuotePx(c, side), c.quoteQty) else d
  }

  function NewOrder(b: Book, side: Side, price: int, qty: int): Order {
    Order(b.nextId, side, price, qty, b.nextTs)
  }

  /** What a placement at the quote price leaves of the book. */
  lemma PlacesLast(c: Config, d: Desk, m: nat, side: Side, qty: int)
    requires c.spread > 0 && Laid(c, d, m) && qty > 0 && d.world.book.free > 0
    ensures var b, px := d.world.book, QuotePx(c, side);
            var r := Place(b, side, px, qty).book;
            && DoesNotCross(b, side, px) && PriorityBook.Inv(r) && r.free + |All(r)| >= 4
            && SideOf(r, side) == SideOf(b, side) + [NewOrder(b, side, px, qty)]
            && SideOf(r, side.Opposite()) == SideOf(b, side.Opposite())
            && r.nextId == b.nextId + 1
  {
    hide PriorityBook.Inv, All, Place, Insert, PriorityBook.Remove;
    var b, px := d.world.book, QuotePx(c, side);
    SideBySide(c, d, m, side);
    QuotePriceIsQuiet(c, d, m, side);
    QuietPlace(b, side, px, qty);
    InsertLast(side, SideOf(b, side), NewOrder(b, side, px, qty));
    PlaceKeepsInv(b, side, px, qty);
    PlaceKeepsSlots(b, side, px, qty);
  }

  lemma QuoteIsPlaced(c: Config, d: Desk, m: nat, side: Side)
    requires Usual(c) && Laid(c, d, m) && Same(d.quotes, side) == 0
    ensures var b, e := d.world.book, Quoted(d, m, side, QuotePx(c, side), c.quoteQty);
            var o := NewOrder(b, side, QuotePx(c, side), c.quoteQty);
            && Laid(c, e, m) && SideOf(e.world.book, side) == SideOf(b, side) + [o] && Mine(c, e, m, side, o)
            && e.world.routing == d.world.routing[o.id := m]
            && e.world.orders == d.world.orders[o.id := Info(Strategy(m), side, c.quoteQty)]
            && SameBeyond(d, e, m, side) && Keeps(d, e)
  {
    hide Place, PriorityBook.Inv, All, PriorityBook.Remove, Laid, OwnPlace, PositionOf;
    var b, px := d.world.book, QuotePx(c, side);
    var e, o := Quoted(d, m, side, px, c.quoteQty), NewOrder(b, side, px, c.quoteQty);
    SideBySide(c, d, m, side);
    SideBySide(c, e, m, side);
    SideFacts(b, d.quotes, side);
    SideFacts(b, d.quotes, side.Opposite());
    SlotFree(c, d, m, side);
    PlacesLast(c, d, m, side, c.quoteQty);
    QuietOwn(d.world, m, side, px, c.quoteQty);
    RemoveFromLonger(SideOf(b, side), o, o.id);
    RemoveAbsent(SideOf(b, side), 0);
  }

  /** Nothing about a standing quote depends on the other side's. */
  lemma StandsStill(c: Config, d: Desk, e: Desk, m: nat, pos: int, side: Side, x: seq<Order>)
    requires Stands(c, d, m, pos, side, x)
    requires SideOf(e.world.book, side) == SideOf(d.world.book, side) && Same(e.quotes, side) == Same(d.quotes, side)
    requires var id, w, v := Same(d.quotes, side), d.world, e.world;
             && (id in w.routing && id != 0 ==> id in v.routing && v.routing[id] == w.routing[id])
             && (id in w.orders && id != 0 ==> id in v.orders && v.orders[id] == w.orders[id])
    ensures Stands(c, e, m, pos, side, x)
  {
  }

  /** One side of a re-quote. */
  lemma QuotesSide(c: Config, d: Desk, m: nat, pos: int, side: Side)
    requires Usual(c) && Laid(c, d, m) && Same(d.quotes, side) == 0
    ensures var e := QuoteSide(c, d, m, pos, side);
            && Laid(c, e, m) && Stands(c, e, m, pos, side, SideOf(d.world.book, side))
            && SameBeyond(d, e, m, side) && Keeps(d, e)
            && forall x :: Stands(c, d, m, pos, side.Opposite(), x) ==> Stands(c, e, m, pos, side.Opposite(), x)
  {
    hide Place, PriorityBook.Inv, All, PriorityBook.Remove, OwnPlace, PositionOf, QuotePx;
    if QuotedAt(c, pos, side) {
      var e := QuoteSide(c, d, m, pos, side);
      QuoteIsPlaced(c, d, m, side);
      SideFacts(d.world.book, d.quotes, side);
      SideFacts(e.world.book, e.quotes, side);
      forall x | Stands(c, d, m, pos, side.Opposite(), x)
        ensures Stands(c, e, m, pos, side.Opposite(), x)
      {
        assert Same(d.quotes, side.Opposite()) != d.world.book.nextId;
        StandsStill(c, d, e, m, pos, side.Opposite(), x);
      }
    }
  }

  lemma PlaceQuotesBySide(c: Config, d: Desk, m: nat)
    ensures var pos := PositionOf(d.world, m);
            var r := QuoteSide(c, QuoteSide(c, d, m, pos, Buy), m, pos, Sell);
            PlaceQuotes(c, d, m, MidPx(c)) == r.(quotes := r.quotes.(lastMid := MidPx(c)))
  {
    hide OwnPlace, PositionOf;
  }

  lemma PullQuotesBySide(d: Desk, m: nat)
    ensures PullQuotes(d, m) == PullSide(PullSide(d, m, Buy), m, Sell)
  {
    hide OwnCancel;
  }

  /** Neither the tick counter nor the last mid matters to the board. */
  lemma CountersDoNotMatter(c: Config, d: Desk, m: nat, pos: int, ticks: nat, mid: int)
    ensures var e := d.(quotes := d.quotes.(ticks := ticks, lastMid := mid));
            && (Laid(c, e, m) <==> Laid(c, d, m)) && Keeps(d, e)
            && Beside(e, Buy) == Beside(d, Buy) && Beside(e, Sell) == Beside(d, Sell)
            && forall side, x :: Stands(c, e, m, pos, side, x) <==> Stands(c, d, m, pos, side, x)
  {
    hide PriorityBook.Inv, All, PriorityBook.Remove;
  }

  /** A re-quote puts both quotes up behind what stood beside them. */
  lemma RequotePutsUp(c: Config, d: Desk, m: nat)
    requires Usual(c) && Laid(c, d, m)
    ensures var e, pos := PlaceQuotes(c, PullQuotes(d, m), m, MidPx(c)), PositionOf(d.world, m);
            && Up(c, e, m, pos, Buy, Beside(d, Buy), Beside(d, Sell)) && Keeps(d, e) && e.quotes.ticks == d.quotes.ticks
  {
    hide Laid, Stands, PullSide, QuoteSide, PullQuotes, PlaceQuotes, Keeps, PriorityBook.Remove, PositionOf;
    var pos := PositionOf(d.world, m);
    var d1 := PullSide(d, m, Buy);
    var d2 := PullSide(d1, m, Sell);
    var d3 := QuoteSide(c, d2, m, pos, Buy);
    var d4 := QuoteSide(c, d3, m, pos, Sell);
    PullsSide(c, d, m, Buy);
    PullsSide(c, d1, m, Sell);
    PullQuotesBySide(d, m);
    QuotesSide(c, d2, m, pos, Buy);
    QuotesSide(c, d3, m, pos, Sell);
    PlaceQuotesBySide(c, d2, m);
    CountersDoNotMatter(c, d4, m, pos, d4.quotes.ticks, MidPx(c));
    var e := PlaceQuotes(c, d2, m, MidPx(c));
    KeepsTwice(d, d1, d2);
    KeepsTwice(d, d2, d3);
    KeepsTwice(d, d3, d4);
    KeepsTwice(d, d4, e);
  }

  /** The market maker sees both sides exactly when both have orders, and the mid never moves. */
  lemma TopIs(c: Config, d: Desk, m: nat)
    requires Usual(c) && Laid(c, d, m)
    ensures var top := TopOf(d.world.book, d.world.lastPx);
            (TwoSided(top) <==> BothSided(d)) && (BothSided(d) ==> top.mid == MidPx(c))
  {
    hide PriorityBook.Inv, All, PriorityBook.Remove, QtyAt;
    assert SideLaid(c, d, Buy) && SideLaid(c, d, Sell);
    assert P.TruncDiv(2 + (2 * c.spread + 2), 2) == MidPx(c);
  }

  function Ticked(c: Config, d: Desk, m: nat): Desk
    requires c.interval > 0
  {
    OnTick(c, d, m, TopOf(d.world.book, d.world.lastPx))
  }

  /** With a side empty the market maker waits. */
  lemma Waits(c: Config, d: Desk, m: nat)
    requires Usual(c) && Laid(c, d, m) && !BothSided(d)
    ensures Ticked(c, d, m) == d
  {
    hide Laid, TopOf;
    TopIs(c, d, m);
  }

  /** It counts the tick and re-quotes if due. */
  lemma Counts(c: Config, d: Desk, m: nat)
    requires Usual(c) && Laid(c, d, m) && BothSided(d)
    ensures var counted := d.(quotes := d.quotes.(ticks := d.quotes.ticks + 1));
            || (Ticked(c, d, m) == counted && (d.quotes.ticks + 1) % c.interval != 0)
            || Ticked(c, d, m) == PlaceQuotes(c, PullQuotes(counted, m), m, MidPx(c))
  {
    hide Laid, TopOf, PullQuotes, PlaceQuotes;
    TopIs(c, d, m);
  }

  predicate SameBeside(d: Desk, e: Desk) {
    Beside(e, Buy) == Beside(d, Buy) && Beside(e, Sell) == Beside(d, Sell)
  }

  /** Any turn keeps the board; a due one, or one with the quotes up, leaves the quotes up. */
  lemma TurnKeepsBoard(c: Config, d: Desk, m: nat)
    requires Usual(c) && Laid(c, d, m)
    ensures var e, pos, t := Ticked(c, d, m), PositionOf(d.world, m), d.quotes.ticks + 1;
            && Laid(c, e, m) && SameBeside(d, e) && PositionOf(e.world, m) == pos && Keeps(d, e)
            && (BothSided(d) ==> e.quotes.ticks == t)
            && (Up(c, d, m, pos, Buy, Beside(d, Buy), Beside(d, Sell)) || (BothSided(d) && t % c.interval == 0)
                ==> Up(c, e, m, pos, Buy, Beside(d, Buy), Beside(d, Sell)))
  {
    hide Laid, Stands, PullQuotes, PlaceQuotes, Keeps, PriorityBook.Remove, PositionOf, Ticked;
    var pos := PositionOf(d.world, m);
    if !BothSided(d) {
      Waits(c, d, m);
      KeepsItself(d);
    } else {
      var counted := d.(quotes := d.quotes.(ticks := d.quotes.ticks + 1));
      Counts(c, d, m);
      CountersDoNotMatter(c, d, m, pos, d.quotes.ticks + 1, d.quotes.lastMid);
      RequotePutsUp(c, counted, m);
      var e := PlaceQuotes(c, PullQuotes(counted, m), m, MidPx(c));
      KeepsTwice(d, counted, e);
      StandsBeside(c, e, m, pos, Buy, Beside(d, Buy));
      StandsBeside(c, e, m, pos, Sell, Beside(d, Sell));
    }
  }

  lemma KeepsItself(d: Desk)
    ensures Keeps(d, d)
  {
  }

  lemma UpFlips(c: Config, d: Desk, m: nat, pos: int, side: Side, x: seq<Order>, y: seq<Order>)
    ensures Up(c, d, m, pos, side, x, y) <==> Up(c, d, m, pos, side.Opposite(), y, x)
  {
    hide Laid, Stands, PositionOf;
  }

  /** The quotes stay up through a turn. */
  lemma TurnKeepsUp(c: Config, d: Desk, m: nat, pos: int, side: Side, x: seq<Order>, y: seq<Order>)
    requires Usual(c) && Up(c, d, m, pos, side, x, y)
    ensures Up(c, Ticked(c, d, m), m, pos, side, x, y) && Keeps(d, Ticked(c, d, m))
  {
    hide Laid, Stands, Keeps, Beside, Ticked, PositionOf;
    StandsBeside(c, d, m, pos, side, x);
    StandsBeside(c, d, m, pos, side.Opposite(), y);
    UpFlips(c, d, m, pos, side, x, y);
    TurnKeepsBoard(c, d, m);
    UpFlips(c, Ticked(c, d, m), m, pos, side, x, y);
  }

  // ----- events -----

  /** The desk as the market maker finds it after an event. */
  function Upon(d: Desk, event: Step): Desk {
    Desk(Next(d.world, event), d.quotes)
  }

  lemma HeardIs(c: Config, d: Desk, m: nat, event: Step)
    requires c.interval > 0
    ensures Heard(c, d, m, event) == Ticked(c, Upon(d, event), m)
  {
    hide OnTick, Next, TopOf;
  }

  function Arrival(c: Config, side: Side, ext: nat): Step {
    Add(side, QuotePx(c, side), 1, ext)
  }

  /** An exogenous order for 1 arrives at the quote price of a side. */
  lemma Arrives(c: Config, d: Desk, m: nat, side: Side, ext: nat)
    requires Usual(c) && Laid(c, d, m) && Beside(d, side) == [] && ext != 0
    ensures var e, b := Upon(d, Arrival(c, side, ext)), d.world.book;
            && Laid(c, e, m) && Beside(e, side) == [NewOrder(b, side, QuotePx(c, side), 1)]
            && Beside(e, side.Opposite()) == Beside(d, side.Opposite())
            && PositionOf(e.world, m) == PositionOf(d.world, m) && e.world.lost == d.world.lost
            && KeepsOrders(d.world, e.world) && e.world.book.nextId == b.nextId + 1
            && e.world.ext == d.world.ext[ext := b.nextId]
  {
    hide Place, PriorityBook.Inv, All, PriorityBook.Remove, Laid, ExoAdd, PositionOf;
    var b, px := d.world.book, QuotePx(c, side);
    var e, o := Upon(d, Arrival(c, side, ext)), NewOrder(b, side, px, 1);
    SideBySide(c, d, m, side);
    SideBySide(c, e, m, side);
    SideFacts(b, d.quotes, side);
    SlotFree(c, d, m, side);
    PlacesLast(c, d, m, side, 1);
    QuietAdd(d.world, m, side, px, 1, ext);
    RemoveFromLonger(SideOf(b, side), o, Same(d.quotes, side));
    assert [] + [o] == [o];
  }

  /** The first order of a side is cancelled by its external id. */
  lemma FrontLeaves(c: Config, d: Desk, m: nat, side: Side, x: Order, ext: nat)
    requires Laid(c, d, m) && SideOf(d.world.book, side) != [] && SideOf(d.world.book, side)[0] == x
    requires ext in d.world.ext && d.world.ext[ext] == x.id
    ensures var e := Upon(d, BacktestRuns.Remove(ext));
            && Laid(c, e, m) && SideOf(e.world.book, side) == SideOf(d.world.book, side)[1..]
            && SideOf(e.world.book, side.Opposite()) == SideOf(d.world.book, side.Opposite())
            && e.world == d.world.(book := e.world.book, ops := e.world.ops, ext := d.world.ext - {ext})
            && e.world.book.nextId == d.world.book.nextId
  {
    hide Cancel, PriorityBook.Inv, All, PriorityBook.Remove, Laid;
    var b, e := d.world.book, Upon(d, BacktestRuns.Remove(ext));
    var q := SideOf(b, side);
    SideBySide(c, d, m, side);
    SideBySide(c, e, m, side);
    SideFacts(b, d.quotes, side);
    CancelIs(b, x.id);
    RemoveAt(q, 0);
    assert q[..0] + q[1..] == q[1..];
    NotOnBothSides(b, side, 0);
    RemoveAbsent(SideOf(b, side.Opposite()), x.id);
    RemoveLess(q, Same(d.quotes, side));
  }

  /** An exogenous order leaves, and the market maker's quote is first. */
  lemma Leaves(c: Config, d: Desk, m: nat, pos: int, side: Side, x: Order, y: seq<Order>, ext: nat)
    requires Up(c, d, m, pos, side, [x], y) && ext in d.world.ext && d.world.ext[ext] == x.id
    ensures var e := Upon(d, BacktestRuns.Remove(ext));
            && Up(c, e, m, pos, side, [], y) && e.world.lost == d.world.lost && Later(d, e)
            && e.world.ext == d.world.ext - {ext}
  {
    hide Laid, Next;
    var e, q := Upon(d, BacktestRuns.Remove(ext)), SideOf(d.world.book, side);
    assert q[..1][0] == q[0];
    FrontLeaves(c, d, m, side, x, ext);
    StandsStill(c, d, e, m, pos, side.Opposite(), y);
  }

  lemma NotOnBothSides(b: Book, side: Side, i: nat)
    requires PriorityBook.Inv(b) && i < |SideOf(b, side)|
    ensures var other := SideOf(b, side.Opposite());
            forall j :: 0 <= j < |other| ==> other[j].id != SideOf(b, side)[i].id
  {
  }

  lemma RemoveLess(q: seq<Order>, id: nat)
    requires q != []
    ensures |PriorityBook.Remove(q[1..], id)| <= |PriorityBook.Remove(q, id)|
  {
  }

  /** An exogenous order that takes `h` at the quote price of `side`. */
  function Hit(c: Config, side: Side, h: int): Step {
    Add(side.Opposite(), QuotePx(c, side), h, 0)
  }

  function Left(o: Order, h: int): seq<Order> {
    if h < o.qty then [o.(qty := o.qty - h)] else []
  }

  lemma FillsOne(o: Order, taker: Side, id: nat, h: int)
    requires 0 < h <= o.qty
    ensures Fill([o], taker, id, o.price, h) == Filled(Left(o, h), 0, [Trade(id, o.id, o.price, h)])
  {
    assert [o][1..] == [] && Fill([], taker, id, o.price, 0) == Filled([], 0, []);
  }

  /** The book's part of a hit on the only order of a side. */
  lemma TakesFront(b: Book, side: Side, o: Order, h: int)
    requires PriorityBook.Inv(b) && SideOf(b, side) == [o] && 0 < h <= o.qty
    ensures var r := Place(b, side.Opposite(), o.price, h);
            && r.trades == [Trade(b.nextId, o.id, o.price, h)] && PriorityBook.Inv(r.book)
            && SideOf(r.book, side) == Left(o, h)
            && SideOf(r.book, side.Opposite()) == SideOf(b, side.Opposite())
            && r.book.nextId == b.nextId + 1 && r.book.free + |All(r.book)| == b.free + |All(b)|
  {
    var r := Place(b, side.Opposite(), o.price, h);
    FillsOne(o, side.Opposite(), b.nextId, h);
    assert r.trades == [Trade(b.nextId, o.id, o.price, h)];
    hide Fill, PriorityBook.Inv, All;
    PlaceKeepsInv(b, side.Opposite(), o.price, h);
    PlaceKeepsSlots(b, side.Opposite(), o.price, h);
  }

  lemma HitParts(w: World, side: Side, price: int, h: int)
    ensures var v := Next(w, Add(side, price, h, 0));
            && v.book == Place(w.book, side, price, h).book && |v.accounts| == |w.accounts| && v.ext == w.ext
            && v.orders == w.orders[w.book.nextId := Info(Exogenous, side, h)]
  {
    hide Place, ExoCredits, ExoRouting, Losses;
  }

  lemma LeftIsLaid(c: Config, side: Side, o: Order, h: int, other: nat)
    requires QueueLaid(c, side, [o], o.id, other)
    ensures QueueLaid(c, side, Left(o, h), o.id, other) && PriorityBook.Remove(Left(o, h), o.id) == []
  {
    assert [o][0] == o;
  }

  /** The board after a hit on the only order of a side, if that is the side's quote. */
  lemma HitKeepsBoard(c: Config, d: Desk, m: nat, side: Side, o: Order, h: int)
    requires Laid(c, d, m) && SideOf(d.world.book, side) == [o] && o.id == Same(d.quotes, side) && 0 < h <= o.qty
    ensures var e, b := Upon(d, Hit(c, side, h)), d.world.book;
            && Laid(c, e, m) && SideOf(e.world.book, side) == Left(o, h) && Beside(e, side) == []
            && SideOf(e.world.book, side.Opposite()) == SideOf(b, side.Opposite())
            && TradesOf(d.world, side.Opposite(), QuotePx(c, side), h) == [Trade(b.nextId, o.id, o.price, h)]
            && Beside(e, side.Opposite()) == Beside(d, side.Opposite())
            && KeepsOrders(d.world, e.world) && e.world.book.nextId == b.nextId + 1 && e.world.ext == d.world.ext
            && e.world.orders == d.world.orders[b.nextId := Info(Exogenous, side.Opposite(), h)]
  {
    var e, b := Upon(d, Hit(c, side, h)), d.world.book;
    HitParts(d.world, side.Opposite(), QuotePx(c, side), h);
    hide Place, PriorityBook.Inv, All, Laid, ExoAdd, PriorityBook.Remove, Left;
    SideBySide(c, d, m, side);
    SideBySide(c, e, m, side);
    assert SideOf(b, side)[0] == o && o.price == QuotePx(c, side);
    TakesFront(b, side, o, h);
    LeftIsLaid(c, side, o, h, Other(d.quotes, side));
  }

  /** A routed quote that is hit is credited, and its route erased. */
  lemma HitIsCredited(c: Config, d: Desk, m: nat, side: Side, o: Order, h: int)
    requires m < |d.world.accounts| && o.id in d.world.routing && d.world.routing[o.id] == m
    requires TradesOf(d.world, side.Opposite(), QuotePx(c, side), h)
             == [Trade(d.world.book.nextId, o.id, o.price, h)]
    ensures var e := Upon(d, Hit(c, side, h));
            && PositionOf(e.world, m) == PositionOf(d.world, m) + Directed(side, h)
            && e.world.lost == d.world.lost && e.world.routing == d.world.routing - {o.id}
  {
    hide Place, Losses, P.OnFill;
    var w, t := d.world, Trade(d.world.book.nextId, o.id, o.price, h);
    var k := MakerCredit(m, side.Opposite(), t, |w.ops|, 0);
    var cs := ExoCredits(w.routing, side.Opposite(), [t], |w.ops|, 0);
    assert cs == [k] + ExoCredits(w.routing - {o.id}, side.Opposite(), [t], |w.ops|, 1);
    assert cs == [k] && [k][..0] == [];
    assert Deliver(w.accounts, []) == w.accounts;
    assert Deliver(w.accounts, cs)[m] == CreditStanding(w.accounts[m], k.fill);
    P.FillMovesBasis(w.accounts[m].portfolio, k.fill);
    NoLossIfRouted(w.routing, w.orders, t);
    assert w.lost + [] == w.lost;
    assert ExoRouting(w.routing, [t], 0) == ExoRouting(w.routing - {o.id}, [t], 1);
  }

  lemma NoLossIfRouted(routing: map<nat, nat>, orders: map<nat, Info>, t: Trade)
    requires t.makerId in routing
    ensures Losses(routing, orders, [t], 0) == []
  {
    assert Losses(routing, orders, [t], 1) == [];
  }

  /** A quote whose route is gone is hit: nobody is told. */
  lemma HitIsLost(c: Config, d: Desk, m: nat, side: Side, o: Order, h: int)
    requires m < |d.world.accounts| && o.id !in d.world.routing && PlacedBy(d.world.orders, m, o.id)
    requires TradesOf(d.world, side.Opposite(), QuotePx(c, side), h)
             == [Trade(d.world.book.nextId, o.id, o.price, h)]
    ensures var e := Upon(d, Hit(c, side, h));
            && PositionOf(e.world, m) == PositionOf(d.world, m) && e.world.lost == d.world.lost + [Loss(o.id, h)]
  {
    hide Place;
    var w, t := d.world, Trade(d.world.book.nextId, o.id, o.price, h);
    assert ExoCredits(w.routing, side.Opposite(), [t], |w.ops|, 0)
        == ExoCredits(w.routing, side.Opposite(), [t], |w.ops|, 1) == [];
    assert Losses(w.routing, w.orders, [t], 0) == [Loss(o.id, h)] + Losses(w.routing, w.orders, [t], 1);
    assert Losses(w.routing, w.orders, [t], 0) == [Loss(o.id, h)];
  }

  // ----- waiting for the quotes -----

  function Prints(n: nat): seq<Step> {
    if n == 0 then [] else Prints(n - 1) + [TradePrint(0)]
  }

  /** Orders beside both quotes keep the book two-sided. */
  predicate Anchored(d: Desk) {
    Beside(d, Buy) != [] && Beside(d, Sell) != []
  }

  lemma AnchoredIsBothSided(d: Desk)
    requires Anchored(d)
    ensures BothSided(d)
  {
  }

  lemma PrintKeepsBoard(c: Config, d: Desk, m: nat, pos: int)
    requires Laid(c, d, m)
    ensures var e := Upon(d, TradePrint(0));
            && Laid(c, e, m) && Keeps(d, e) && SameBeside(d, e) && PositionOf(e.world, m) == PositionOf(d.world, m)
            && e.quotes == d.quotes
            && forall side, x :: Stands(c, e, m, pos, side, x) <==> Stands(c, d, m, pos, side, x)
  {
    hide PriorityBook.Inv, All, PriorityBook.Remove;
  }

  /** Ticks until a re-quote is due. */
  function TicksToGo(c: Config, d: Desk): int
    requires c.interval > 0
  {
    c.interval - d.quotes.ticks % c.interval
  }

  lemma DueThen(c: Config, d: Desk)
    requires c.interval > 0
    ensures (d.quotes.ticks + TicksToGo(c, d)) % c.interval == 0 && 1 <= TicksToGo(c, d) <= c.interval
  {
    var t, n := d.quotes.ticks, c.interval;
    assert t == (t / n) * n + t % n;
    W.ModUnique(t + TicksToGo(c, d), n, t / n + 1, 0);
  }

  predicate Settled(c: Config, d: Desk, m: nat, e: Desk) {
    Laid(c, e, m) && SameBeside(d, e) && PositionOf(e.world, m) == PositionOf(d.world, m) && Keeps(d, e)
  }

  /** Each print is a tick; once one was due the quotes are up and stay up. */
  lemma {:induction false} Settles(c: Config, d: Desk, m: nat, n: nat)
    requires Usual(c) && Laid(c, d, m) && Anchored(d)
    ensures var e, pos := Played(c, d, m, Prints(n)), PositionOf(d.world, m);
            && Settled(c, d, m, e) && e.quotes.ticks == d.quotes.ticks + n
            && (n >= TicksToGo(c, d) ==> Up(c, e, m, pos, Buy, Beside(d, Buy), Beside(d, Sell)))
  {
    hide Laid, Stands, Keeps, Beside, Ticked, PositionOf, Heard, Next, TicksToGo;
    DueThen(c, d);
    if n == 0 {
      KeepsItself(d);
    } else {
      var pos, f := PositionOf(d.world, m), Played(c, d, m, Prints(n - 1));
      Settles(c, d, m, n - 1);
      PlayedAppend(c, d, m, Prints(n - 1), [TradePrint(0)]);
      PlayedOne(c, f, m, TradePrint(0));
      HeardIs(c, f, m, TradePrint(0));
      var g := Upon(f, TradePrint(0));
      PrintKeepsBoard(c, f, m, pos);
      AnchoredIsBothSided(g);
      TurnKeepsBoard(c, g, m);
      KeepsTwice(d, f, g);
      KeepsTwice(d, g, Ticked(c, g, m));
    }
  }

  /** An order comes, the market maker quotes behind it, and the order goes. */
  function Draw(c: Config, side: Side): seq<Step>
    requires c.interval > 0
  {
    [Arrival(c, side, NEAR)] + Prints(c.interval) + [BacktestRuns.Remove(NEAR)]
  }

  lemma PlayedDraw(c: Config, d: Desk, m: nat, side: Side)
    requires c.interval > 0
    ensures var e := Ticked(c, Upon(d, Arrival(c, side, NEAR)), m);
            var f := Played(c, e, m, Prints(c.interval));
            Played(c, d, m, Draw(c, side)) == Ticked(c, Upon(f, BacktestRuns.Remove(NEAR)), m)
  {
    hide Ticked, Heard, Upon, Prints;
    var come, go := Arrival(c, side, NEAR), BacktestRuns.Remove(NEAR);
    PlayedAppend(c, d, m, [come] + Prints(c.interval), [go]);
    PlayedAppend(c, d, m, [come], Prints(c.interval));
    PlayedOne(c, d, m, come);
    HeardIs(c, d, m, come);
    PlayedOne(c, Played(c, d, m, [come] + Prints(c.interval)), m, go);
    HeardIs(c, Played(c, d, m, [come] + Prints(c.interval)), m, go);
  }

  lemma AnchoredFrom(d: Desk, side: Side)
    requires Beside(d, side) != [] && Beside(d, side.Opposite()) != []
    ensures Anchored(d)
  {
    hide Beside;
  }

  lemma SameBesideOn(d: Desk, e: Desk, side: Side)
    requires SameBeside(d, e)
    ensures Beside(e, side) == Beside(d, side)
  {
    hide Beside;
  }

  /** An order that comes and stays until the quotes are up. */
  lemma DrawsBehind(c: Config, d: Desk, m: nat, side: Side)
    requires Usual(c) && Laid(c, d, m) && Beside(d, side) == [] && Beside(d, side.Opposite()) != []
    ensures var e := Ticked(c, Upon(d, Arrival(c, side, NEAR)), m);
            var f, x := Played(c, e, m, Prints(c.interval)), NewOrder(d.world.book, side, QuotePx(c, side), 1);
            && Up(c, f, m, PositionOf(d.world, m), side, [x], Beside(d, side.Opposite())) && Grown(d, f)
            && NEAR in f.world.ext && f.world.ext[NEAR] == x.id
  {
    var come := Arrival(c, side, NEAR);
    var t := Upon(d, come);
    Arrives(c, d, m, side, NEAR);
    assert Grown(d, t);
    hide Laid, Stands, Grown, Beside, Ticked, PositionOf, Played, Next, QuotePx, Prints;
    TurnKeepsBoard(c, t, m);
    var e := Ticked(c, t, m);
    SameBesideOn(t, e, side);
    SameBesideOn(t, e, side.Opposite());
    AnchoredFrom(e, side);
    Settles(c, e, m, c.interval);
    DueThen(c, e);
    var f := Played(c, e, m, Prints(c.interval));
    UpFlips(c, f, m, PositionOf(d.world, m), Buy, Beside(e, Buy), Beside(e, Sell));
    GrownTwice(d, t, e);
    GrownTwice(d, e, f);
  }

  lemma Draws(c: Config, d: Desk, m: nat, side: Side)
    requires Usual(c) && Laid(c, d, m) && Beside(d, side) == [] && Beside(d, side.Opposite()) != []
    ensures var e := Played(c, d, m, Draw(c, side));
            Up(c, e, m, PositionOf(d.world, m), side, [], Beside(d, side.Opposite())) && Grown(d, e)
  {
    hide Laid, Stands, Beside, Ticked, PositionOf, Played, QuotePx, Prints;
    var x, pos := NewOrder(d.world.book, side, QuotePx(c, side), 1), PositionOf(d.world, m);
    var f := Played(c, Ticked(c, Upon(d, Arrival(c, side, NEAR)), m), m, Prints(c.interval));
    DrawsBehind(c, d, m, side);
    Leaves(c, f, m, pos, side, x, Beside(d, side.Opposite()), NEAR);
    var g := Upon(f, BacktestRuns.Remove(NEAR));
    assert Grown(f, g);
    hide Grown;
    TurnKeepsUp(c, g, m, pos, side, [], Beside(d, side.Opposite()));
    GrownTwice(d, f, g);
    GrownTwice(d, g, Ticked(c, g, m));
    PlayedDraw(c, d, m, side);
  }

  // ----- to the ends of the band -----

  /** The side's quote is first and whole, and is hit for `h`. */
  lemma QuoteIsHit(c: Config, d: Desk, m: nat, pos: int, side: Side, y: seq<Order>, h: int)
    requires Usual(c) && Up(c, d, m, pos, side, [], y) && QuotedAt(c, pos, side) && 0 < h <= c.quoteQty
    ensures var e := Upon(d, Hit(c, side, h));
            var o := SideOf(d.world.book, side)[0];
            && Laid(c, e, m) && SideOf(e.world.book, side) == Left(o, h) && Beside(e, side) == []
            && SideOf(e.world.book, side.Opposite()) == SideOf(d.world.book, side.Opposite())
            && Beside(e, side.Opposite()) == y
            && PositionOf(e.world, m) == pos + Directed(side, h) && Keeps(d, e)
            && e.world.routing == d.world.routing - {o.id}
            && e.world.orders == d.world.orders[d.world.book.nextId := Info(Exogenous, side.Opposite(), h)]
  {
    hide Laid, Beside, PositionOf, Next, QuotePx;
    var o := SideOf(d.world.book, side)[0];
    assert SideOf(d.world.book, side) == [o];
    HitKeepsBoard(c, d, m, side, o, h);
    LaidAccounts(c, d, m);
    HitIsCredited(c, d, m, side, o, h);
    StandsBeside(c, d, m, pos, side.Opposite(), y);
  }

  lemma LaidAccounts(c: Config, d: Desk, m: nat)
    requires Laid(c, d, m)
    ensures m < |d.world.accounts|
  {
  }

  function Gain(c: Config, side: Side): seq<Step>
    requires c.interval > 0
  {
    [Hit(c, side, 1)] + Draw(c, side)
  }

  /** One more unit on the side's quote, and the quotes are up again. */
  lemma Gains(c: Config, d: Desk, m: nat, pos: int, side: Side, y: seq<Order>)
    requires Usual(c) && Up(c, d, m, pos, side, [], y) && QuotedAt(c, pos, side) && y != []
    ensures var e := Played(c, d, m, Gain(c, side));
            Up(c, e, m, pos + Directed(side, 1), side, [], y) && Grown(d, e)
  {
    var t := Upon(d, Hit(c, side, 1));
    QuoteIsHit(c, d, m, pos, side, y, 1);
    hide Laid, Stands, Grown, Beside, Ticked, PositionOf, Played, Next, QuotePx, Draw, Heard;
    TurnKeepsBoard(c, t, m);
    var e := Ticked(c, t, m);
    SameBesideOn(t, e, side);
    SameBesideOn(t, e, side.Opposite());
    GrownTwice(d, t, e);
    PlayedAppend(c, d, m, [Hit(c, side, 1)], Draw(c, side));
    PlayedOne(c, d, m, Hit(c, side, 1));
    HeardIs(c, d, m, Hit(c, side, 1));
    Draws(c, e, m, side);
    GrownTwice(d, e, Played(c, e, m, Draw(c, side)));
  }

  function Climb(c: Config, side: Side, n: nat): seq<Step>
    requires c.interval > 0
  {
    if n == 0 then [] else Climb(c, side, n - 1) + Gain(c, side)
  }

  lemma {:induction false} Climbs(c: Config, d: Desk, m: nat, pos: int, side: Side, y: seq<Order>, n: nat)
    requires Usual(c) && Up(c, d, m, pos, side, [], y) && y != []
    requires n > 0 ==> QuotedAt(c, pos + Directed(side, n - 1), side)
    ensures var e := Played(c, d, m, Climb(c, side, n));
            Up(c, e, m, pos + Directed(side, n), side, [], y) && Grown(d, e)
  {
    hide Up, Grown, Gain, Played;
    if n == 0 {
      PlayedNone(c, d, m);
    } else {
      var e := Played(c, d, m, Climb(c, side, n - 1));
      Climbs(c, d, m, pos, side, y, n - 1);
      PlayedAppend(c, d, m, Climb(c, side, n - 1), Gain(c, side));
      Gains(c, e, m, pos + Directed(side, n - 1), side, y);
      GrownTwice(d, e, Played(c, e, m, Gain(c, side)));
    }
  }

  lemma PlayedNone(c: Config, d: Desk, m: nat)
    requires c.interval > 0
    ensures Played(c, d, m, []) == d && Grown(d, d)
  {
  }

  /** One exogenous order on the far side, and the quotes drawn out on the near side. */
  function Begin(c: Config, side: Side): seq<Step>
    requires c.interval > 0
  {
    [Arrival(c, side.Opposite(), FAR)] + Draw(c, side)
  }

  lemma OpeningIsLaid(c: Config, capacity: nat, strategies: nat, m: nat)
    requires capacity >= 4 && m < strategies
    ensures var d := Opening(capacity, strategies);
            && Laid(c, d, m) && Beside(d, Buy) == [] && Beside(d, Sell) == [] && PositionOf(d.world, m) == 0
            && d.world.lost == []
  {
  }

  /** From a book without exogenous orders. */
  lemma BeginsFrom(c: Config, d: Desk, m: nat, side: Side)
    returns (far: Order)
    requires Usual(c) && Laid(c, d, m) && Beside(d, Buy) == [] && Beside(d, Sell) == []
    ensures var e := Played(c, d, m, Begin(c, side));
            && Up(c, e, m, PositionOf(d.world, m), side, [], [far]) && e.world.lost == d.world.lost && Later(d, e)
            && FAR in e.world.ext && e.world.ext[FAR] == far.id
  {
    hide Laid, Stands, Beside, Ticked, PositionOf, Played, Next, QuotePx, Draw, Heard, KeepsOrders;
    var open := Arrival(c, side.Opposite(), FAR);
    var t := Upon(d, open);
    far := NewOrder(d.world.book, side.Opposite(), QuotePx(c, side.Opposite()), 1);
    Arrives(c, d, m, side.Opposite(), FAR);
    assert Later(d, t) && FAR in t.world.ext && t.world.ext[FAR] == far.id;
    hide Later;
    TurnKeepsBoard(c, t, m);
    var e := Ticked(c, t, m);
    SameBesideOn(t, e, side);
    SameBesideOn(t, e, side.Opposite());
    PlayedAppend(c, d, m, [open], Draw(c, side));
    PlayedOne(c, d, m, open);
    HeardIs(c, d, m, open);
    Draws(c, e, m, side);
    LaterTwice(d, t, e);
    LaterTwice(d, e, Played(c, e, m, Draw(c, side)));
  }

  /** To the limit one unit at a time, and then one more whole quote. */
  function ToTheBound(c: Config, side: Side): seq<Step>
    requires c.interval > 0 && c.limit >= 0
  {
    Begin(c, side) + Climb(c, side, c.limit) + [Hit(c, side, c.quoteQty)]
  }

  /** The last hit, for the whole quote. */
  lemma WholeHit(c: Config, d: Desk, m: nat, pos: int, side: Side, y: seq<Order>)
    requires Usual(c) && Up(c, d, m, pos, side, [], y) && QuotedAt(c, pos, side)
    ensures var e := Heard(c, d, m, Hit(c, side, c.quoteQty));
            PositionOf(e.world, m) == pos + Directed(side, c.quoteQty) && Grown(d, e)
  {
    var t := Upon(d, Hit(c, side, c.quoteQty));
    QuoteIsHit(c, d, m, pos, side, y, c.quoteQty);
    hide Laid, Stands, Grown, Beside, Ticked, PositionOf, Next, QuotePx, Heard;
    TurnKeepsBoard(c, t, m);
    HeardIs(c, d, m, Hit(c, side, c.quoteQty));
    GrownTwice(d, t, Ticked(c, t, m));
  }

  /**
    Either end of the band is reached in a replay of events from the empty book, for every limit,
    quote size, re-quoting threshold and interval, and every positive half-spread.
   */
  lemma BandIsReached(c: Config, capacity: nat, strategies: nat, m: nat, side: Side)
    requires Usual(c) && capacity >= 4 && m < strategies
    ensures PositionOf(Played(c, Opening(capacity, strategies), m, ToTheBound(c, side)).world, m)
            == Directed(side, Bound(c))
    ensures forall i :: 0 <= i < |ToTheBound(c, side)| ==> FromFile(ToTheBound(c, side)[i])
  {
    hide Up, Laid, Beside, Grown, Played, Begin, Climb, Opening, PositionOf, Heard;
    var o := Opening(capacity, strategies);
    var last := [Hit(c, side, c.quoteQty)];
    OpeningIsLaid(c, capacity, strategies, m);
    var far := BeginsFrom(c, o, m, side);
    var d := Played(c, o, m, Begin(c, side));
    Climbs(c, d, m, 0, side, [far], c.limit);
    var e := Played(c, d, m, Climb(c, side, c.limit));
    WholeHit(c, e, m, Directed(side, c.limit), side, [far]);
    PlayedAppend(c, o, m, Begin(c, side), Climb(c, side, c.limit));
    PlayedAppend(c, o, m, Begin(c, side) + Climb(c, side, c.limit), last);
    PlayedOne(c, e, m, last[0]);
    BeginIsFromFile(c, side);
    ClimbIsFromFile(c, side, c.limit);
  }

  lemma {:induction false} PrintsAreFromFile(n: nat)
    ensures forall i :: 0 <= i < |Prints(n)| ==> FromFile(Prints(n)[i])
  {
    if n > 0 {
      PrintsAreFromFile(n - 1);
    }
  }

  lemma BeginIsFromFile(c: Config, side: Side)
    requires c.interval > 0
    ensures forall i :: 0 <= i < |Begin(c, side)| ==> FromFile(Begin(c, side)[i])
    ensures forall i :: 0 <= i < |Gain(c, side)| ==> FromFile(Gain(c, side)[i])
  {
    PrintsAreFromFile(c.interval);
  }

  lemma {:induction false} ClimbIsFromFile(c: Config, side: Side, n: nat)
    requires c.interval > 0
    ensures forall i :: 0 <= i < |Climb(c, side, n)| ==> FromFile(Climb(c, side, n)[i])
  {
    if n > 0 {
      ClimbIsFromFile(c, side, n - 1);
      BeginIsFromFile(c, side);
    }
  }
}
