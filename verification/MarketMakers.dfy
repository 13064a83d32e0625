/**
  The market maker inside a backtest. Whatever the exogenous flow and the other strategies do, its
  position never leaves the band its inventory limit and quote size allow.
 */
module MarketMakers {
  import opened Orders
  import opened PriorityBook
  import opened BookRuns
  import opened Backtest
  import opened BacktestLaws
  import opened BacktestRuns
  import opened BacktestTheorems
  import P = Portfolios

  datatype Config = Config(quoteQty: int, spread: int, threshold: int, interval: int, limit: int)

  /** The market maker's own fields; id 0 means no quote on that side. */
  datatype Quotes = Quotes(bidId: nat, askId: nat, lastMid: int, ticks: nat)

  datatype BookTop = BookTop(bidPx: int, bidQty: int, askPx: int, askQty: int, mid: int)

  /** What a strategy sees of the book; 0 stands for an empty side, also when the best price is 0. */
  function TopOf(b: Book, lastPx: int): BookTop {
    var bid := BestBid(b);
    var ask := if BestAsk(b) == INT64_MAX then 0 else BestAsk(b);
    BookTop(bid, if bid != 0 then QtyAt(b.bids, bid) else 0,
            ask, if ask != 0 then QtyAt(b.asks, ask) else 0,
            if bid != 0 && ask != 0 then P.TruncDiv(bid + ask, 2)
            else if bid != 0 then bid
            else if ask != 0 then ask
            else lastPx)
  }

  /** The price shown is the best of `q` on its side, with all that is queued there. */
  ghost predicate ShowsBest(side: Side, q: seq<Order>, px: int, qty: int) {
    exists i :: 0 <= i < |q| && px == q[i].price && qty == QtyAt(q, px) > 0
                && forall j :: 0 <= j < |q| ==> if side.Buy? then q[j].price <= px else px <= q[j].price
  }

  lemma FrontIsBest(side: Side, q: seq<Order>, nextId: nat, nextTs: nat)
    requires SideInv(side, q, nextId, nextTs) && q != []
    ensures ShowsBest(side, q, q[0].price, QtyAt(q, q[0].price))
  {
    hide QtyAt;
    QtyAtFront(q);
    assert forall j :: 0 < j < |q| ==> Ahead(side, q[0], q[j]);
  }

  /**
    What a strategy is shown: the best price of each side with all its quantity, or 0 for a side without
    one; and as mid the halfway price, to within half a tick, if both are shown, the one shown if only one
    is, and else the last price traded.
   */
  lemma MidIsInside(b: Book, lastPx: int)
    requires PriorityBook.Inv(b)
    ensures var t := TopOf(b, lastPx);
            && (b.bids == [] ==> t.bidPx == 0) && (b.asks == [] ==> t.askPx == 0)
            && (b.bids != [] ==> t.bidPx == 0 || ShowsBest(Buy, b.bids, t.bidPx, t.bidQty))
            && (b.asks != [] ==> t.askPx == 0 || ShowsBest(Sell, b.asks, t.askPx, t.askQty))
            && (b.bids != [] && t.bidPx == 0 ==> b.bids[0].price == 0)
            && (b.asks != [] && t.askPx == 0 ==> b.asks[0].price == 0 || b.asks[0].price == 0x7fff_ffff_ffff_ffff)
            && (t.bidPx == 0 ==> t.bidQty == 0) && (t.askPx == 0 ==> t.askQty == 0)
            && (t.bidPx != 0 && t.askPx != 0 ==>
                  t.bidPx <= t.mid <= t.askPx && t.bidPx < t.askPx && -1 <= 2 * t.mid - (t.bidPx + t.askPx) <= 1)
            && (t.bidPx == 0 && t.askPx != 0 ==> t.mid == t.askPx)
            && (t.bidPx != 0 && t.askPx == 0 ==> t.mid == t.bidPx)
            && (t.bidPx == 0 && t.askPx == 0 ==> t.mid == lastPx)
  {
    hide QtyAt, ShowsBest;
    if b.bids != [] {
      FrontIsBest(Buy, b.bids, b.nextId, b.nextTs);
    }
    if b.asks != [] {
      FrontIsBest(Sell, b.asks, b.nextId, b.nextTs);
    }
  }

  datatype Desk = Desk(world: World, quotes: Quotes)

  // ----- what the market maker does on a tick -----

  function PullBid(d: Desk, m: nat): Desk {
    if d.quotes.bidId != 0 then Desk(OwnCancel(d.world, m, d.quotes.bidId), d.quotes.(bidId := 0)) else d
  }

  function PullAsk(d: Desk, m: nat): Desk {
    if d.quotes.askId != 0 then Desk(OwnCancel(d.world, m, d.quotes.askId), d.quotes.(askId := 0)) else d
  }

  function PullQuotes(d: Desk, m: nat): Desk {
    PullAsk(PullBid(d, m), m)
  }

  function PositionOf(w: World, m: nat): int {
    if m < |w.accounts| then w.accounts[m].portfolio.position else 0
  }

  function QuoteBid(c: Config, d: Desk, m: nat, mid: int, pos: int): Desk {
    if pos <= c.limit then
      Desk(OwnPlace(d.world, m, Buy, mid - c.spread, c.quoteQty), d.quotes.(bidId := d.world.book.nextId))
    else d
  }

  function QuoteAsk(c: Config, d: Desk, m: nat, mid: int, pos: int): Desk {
    if pos >= -c.limit then
      Desk(OwnPlace(d.world, m, Sell, mid + c.spread, c.quoteQty), d.quotes.(askId := d.world.book.nextId))
    else d
  }

  /** The position is read once, before either quote is placed. */
  function PlaceQuotes(c: Config, d: Desk, m: nat, mid: int): Desk {
    var pos := PositionOf(d.world, m);
    var r := QuoteAsk(c, QuoteBid(c, d, m, mid, pos), m, mid, pos);
    r.(quotes := r.quotes.(lastMid := mid))
  }

  predicate TwoSided(top: BookTop) {
    top.bidPx != 0 && top.askPx != 0
  }

  predicate Requotes(c: Config, q: Quotes, top: BookTop)
    requires c.interval > 0
  {
    || q.lastMid == 0 || P.Abs(top.mid - q.lastMid) >= c.threshold
    || (q.ticks + 1) % c.interval == 0
  }

  function OnTick(c: Config, d: Desk, m: nat, top: BookTop): Desk
    requires c.interval > 0
  {
    if !TwoSided(top) then d
    else
      var counted := d.(quotes := d.quotes.(ticks := d.quotes.ticks + 1));
      if !Requotes(c, d.quotes, top) then counted
      else PlaceQuotes(c, PullQuotes(counted, m), m, top.mid)
  }

  // ----- the invariant -----

  function Bound(c: Config): int {
    Max(0, c.limit + Max(c.quoteQty, 0))
  }

  ghost predicate IsMine(w: World, m: nat, id: nat, side: Side) {
    id in w.orders && w.orders[id].owner == Strategy(m) && w.orders[id].side == side
  }

  /** A remembered quote is the market maker's own, and nothing else of its rests. */
  ghost predicate QuotesOk(d: Desk, m: nat) {
    && (d.quotes.bidId != 0 ==> IsMine(d.world, m, d.quotes.bidId, Buy))
    && (d.quotes.askId != 0 ==> IsMine(d.world, m, d.quotes.askId, Sell))
    && (forall id :: id in d.world.orders && d.world.orders[id].owner == Strategy(m) && Resting(d.world.book, id) > 0
          ==> id == d.quotes.bidId || id == d.quotes.askId)
  }

  /** Even if every resting quote filled, the position would stay in the band. */
  ghost predicate Banded(c: Config, d: Desk, m: nat) {
    && PositionOf(d.world, m) + Resting(d.world.book, d.quotes.bidId) <= Bound(c)
    && PositionOf(d.world, m) - Resting(d.world.book, d.quotes.askId) >= -Bound(c)
  }

  ghost predicate DeskInv(c: Config, d: Desk, m: nat) {
    Backtest.Inv(d.world) && m < |d.world.accounts| && QuotesOk(d, m) && Banded(c, d, m)
  }

  // ----- how a position moves -----

  lemma {:induction false} NetAppend(a: seq<P.Fill>, b: seq<P.Fill>)
    ensures P.NetPosition(a + b) == P.NetPosition(a) + P.NetPosition(b)
  {
    if b == [] {
      assert a + b == a;
    } else {
      var n := |b| - 1;
      NetAppend(a, b[..n]);
      assert (a + b)[..|a| + n] == a + b[..n];
    }
  }

  /** A position moves by the new fills of its strategy. */
  lemma PositionMoves(w: World, v: World, cs: seq<Credit>, m: nat)
    requires AccountsOk(w) && AccountsOk(v) && m < |w.accounts| == |v.accounts|
    requires v.credits == w.credits + cs
    ensures PositionOf(v, m) == PositionOf(w, m) + P.NetPosition(FillsOf(cs, m))
  {
    FillsAppend(w.credits, cs, m);
    NetAppend(FillsOf(w.credits, m), FillsOf(cs, m));
    P.BasisLaw(FillsOf(w.credits, m));
    P.BasisLaw(FillsOf(v.credits, m));
  }

  /** The credits of `m` are for `bid` as a buyer or for `ask` as a seller, and only `m` is credited for them. */
  predicate OnlyQuotes(c: Credit, m: nat, bid: nat, ask: nat) {
    && (c.strategy == m ==> c.order == bid || c.order == ask)
    && (c.order == bid ==> c.strategy == m && c.fill.side == Buy)
    && (c.order == ask ==> c.strategy == m && c.fill.side == Sell)
  }

  lemma {:induction false} NetOfQuotes(cs: seq<Credit>, m: nat, bid: nat, ask: nat)
    requires forall i :: 0 <= i < |cs| ==> OnlyQuotes(cs[i], m, bid, ask)
    ensures P.NetPosition(FillsOf(cs, m)) == CreditedQty(cs, bid) - CreditedQty(cs, ask)
  {
    if cs != [] {
      var n := |cs| - 1;
      hide P.NetPosition;
      NetOfQuotes(cs[..n], m, bid, ask);
      var fs := FillsOf(cs[..n], m);
      assert OnlyQuotes(cs[n], m, bid, ask);
      P.NetSnoc(fs, cs[n].fill);
      assert FillsOf(cs, m) == if cs[n].strategy == m then fs + [cs[n].fill] else fs;
    }
  }

  lemma RestsOnASide(b: Book, id: nat)
    ensures Rests(b, id) ==> HasId(SideOf(b, Buy), id) || HasId(SideOf(b, Sell), id)
  {
    if i :| 0 <= i < |All(b)| && All(b)[i].id == id {
      if i < |b.bids| {
        assert b.bids[i].id == id;
      } else {
        assert b.asks[i - |b.bids|].id == id;
      }
    }
  }

  lemma NoOrderZero(w: World)
    requires Backtest.Inv(w)
    ensures Resting(w.book, 0) == 0 && 0 !in w.orders
  {
    hide PriorityBook.Inv, Rests, HasId, Resting, Run, Attributed, CreditsOk, AccountsOk;
    RestsHasQty(w.book, 0);
    RestsOnASide(w.book, 0);
    assert forall side :: HasId(SideOf(w.book, side), 0) ==> 0 in w.orders;
  }

  lemma NewIdIsNew(w: World, id: nat)
    requires Backtest.Inv(w)
    requires id == 0 || id in w.orders
    ensures id != w.book.nextId
  {
  }

  /** A credit of the new world concerns a quote if its order is one of the two or is not the market maker's. */
  lemma CreditIsQuote(v: World, c: Credit, m: nat, bid: nat, ask: nat)
    requires CreditOk(v, c) && 0 !in v.orders
    requires bid != 0 ==> IsMine(v, m, bid, Buy)
    requires ask != 0 ==> IsMine(v, m, ask, Sell)
    requires c.strategy == m ==> c.order == bid || c.order == ask
    ensures OnlyQuotes(c, m, bid, ask)
  {
  }

  // ----- a placement by somebody else -----

  /** Someone else's placement, exogenous or by another strategy. */
  ghost predicate Theirs(w: World, v: World, m: nat, owner: Owner, side: Side, price: int, qty: int, cs: seq<Credit>) {
    && Backtest.Inv(w) && Backtest.Inv(v) && Submitted(w, v, owner, side, price, qty)
    && owner != Strategy(m) && v.credits == w.credits + cs
    && (forall i :: 0 <= i < |cs| ==>
          cs[i].strategy == m ==>
            exists k :: 0 <= k < |TradesOf(w, side, price, qty)|
                        && TradesOf(w, side, price, qty)[k].makerId == cs[i].order)
    && (forall id :: id != w.book.nextId ==>
          0 <= CreditedQty(cs, id) <= MadeBy(TradesOf(w, side, price, qty), id))
  }

  lemma ExoAddIsTheirs(w: World, m: nat, side: Side, price: int, qty: int, extId: nat)
    requires Backtest.Inv(w)
    ensures var cs := ExoCredits(w.routing, side, TradesOf(w, side, price, qty), |w.ops|, 0);
            Theirs(w, ExoAdd(w, side, price, qty, extId), m, Exogenous, side, price, qty, cs)
  {
    hide PriorityBook.Inv, Place, ExoCredits, ExoRouting, Losses, CreditedQty, Deliver;
    var v := ExoAdd(w, side, price, qty, extId);
    var ts := TradesOf(w, side, price, qty);
    var cs := ExoCredits(w.routing, side, ts, |w.ops|, 0);
    ExoAddKeepsInv(w, side, price, qty, extId);
    ExoCreditsMade(w.routing, side, ts, |w.ops|, 0);
    PlacementIsFair(w, side, price, qty);
    assert ts[0..] == ts;
    forall id: nat
      ensures 0 <= CreditedQty(cs, id) <= MadeBy(ts, id)
    {
      ExoCredited(w.routing, side, ts, |w.ops|, 0, id);
      MadeBySign(ts, id);
    }
    forall i | 0 <= i < |cs| && cs[i].strategy == m
      ensures exists k :: 0 <= k < |ts| && ts[k].makerId == cs[i].order
    {
      assert MakerOk(w.routing, side, ts, |w.ops|, cs[i]);
    }
  }

  lemma QuoteIsTheirs(w: World, m: nat, s: nat, side: Side, price: int, qty: int)
    requires Backtest.Inv(w) && s < |w.accounts| && s != m
    ensures var v := OwnPlace(w, s, side, price, qty);
            var cs := OwnCredits(v.routing, s, side, TradesOf(w, side, price, qty), |w.ops|, 0);
            Theirs(w, v, m, Strategy(s), side, price, qty, cs)
  {
    hide PriorityBook.Inv, Place, OwnCredits, Losses, CreditedQty, Deliver, Total;
    var v := OwnPlace(w, s, side, price, qty);
    var ts := TradesOf(w, side, price, qty);
    var cs := OwnCredits(v.routing, s, side, ts, |w.ops|, 0);
    OwnPlaceKeepsInv(w, s, side, price, qty);
    OwnCreditsMade(v.routing, s, side, ts, |w.ops|, 0);
    PlacementIsFair(w, side, price, qty);
    assert ts[0..] == ts;
    forall id: nat | id != w.book.nextId
      ensures 0 <= CreditedQty(cs, id) <= MadeBy(ts, id)
    {
      OwnCredited(v.routing, s, side, ts, |w.ops|, 0, id, w.book.nextId);
      MadeBySign(ts, id);
    }
    forall i | 0 <= i < |cs| && cs[i].strategy == m
      ensures exists k :: 0 <= k < |ts| && ts[k].makerId == cs[i].order
    {
      assert MakerOk(v.routing, side, ts, |w.ops|, cs[i]) || TakerOk(s, side, ts, |w.ops|, cs[i]);
    }
  }

  lemma TheirsConcernsQuotes(c: Config, d: Desk, v: World, m: nat, owner: Owner, side: Side, price: int, qty: int,
                             cs: seq<Credit>, i: nat)
    requires DeskInv(c, d, m) && Theirs(d.world, v, m, owner, side, price, qty, cs) && i < |cs|
    ensures OnlyQuotes(cs[i], m, d.quotes.bidId, d.quotes.askId)
  {
    hide PriorityBook.Inv, Place, CreditedQty, Resting, Run;
    var w := d.world;
    var ts := TradesOf(w, side, price, qty);
    assert v.credits[|w.credits| + i] == cs[i];
    assert CreditOk(v, cs[i]);
    NoOrderZero(v);
    MakersRest(w, side, price, qty);
    if cs[i].strategy == m {
      var k :| 0 <= k < |ts| && ts[k].makerId == cs[i].order;
      assert Resting(w.book, cs[i].order) > 0;
      RestsHasQty(w.book, cs[i].order);
      assert cs[i].order in w.orders && v.orders[cs[i].order] == w.orders[cs[i].order];
    }
    CreditIsQuote(v, cs[i], m, d.quotes.bidId, d.quotes.askId);
  }

  lemma TheirsKeepsQuotes(c: Config, d: Desk, v: World, m: nat, owner: Owner, side: Side, price: int, qty: int,
                          cs: seq<Credit>)
    requires DeskInv(c, d, m) && Theirs(d.world, v, m, owner, side, price, qty, cs)
    ensures QuotesOk(Desk(v, d.quotes), m)
  {
    hide PriorityBook.Inv, Place, CreditedQty, Resting, Run;
    var w := d.world;
    forall id | id in v.orders && v.orders[id].owner == Strategy(m) && Resting(v.book, id) > 0
      ensures id == d.quotes.bidId || id == d.quotes.askId
    {
      assert id in w.orders;
      RestingOld(w, side, price, qty, id);
    }
  }

  lemma TheirsKeepsDesk(c: Config, d: Desk, v: World, m: nat, owner: Owner, side: Side, price: int, qty: int,
                        cs: seq<Credit>)
    requires DeskInv(c, d, m) && Theirs(d.world, v, m, owner, side, price, qty, cs)
    ensures DeskInv(c, Desk(v, d.quotes), m)
  {
    hide PriorityBook.Inv, Place, CreditedQty, Resting, Run, FillsOf, MadeBy;
    var w, q := d.world, d.quotes;
    TheirsKeepsQuotes(c, d, v, m, owner, side, price, qty, cs);
    forall i | 0 <= i < |cs|
      ensures OnlyQuotes(cs[i], m, q.bidId, q.askId)
    {
      TheirsConcernsQuotes(c, d, v, m, owner, side, price, qty, cs, i);
    }
    NetOfQuotes(cs, m, q.bidId, q.askId);
    PositionMoves(w, v, cs, m);
    NewIdIsNew(w, q.bidId);
    NewIdIsNew(w, q.askId);
    RestingOld(w, side, price, qty, q.bidId);
    RestingOld(w, side, price, qty, q.askId);
  }
}
