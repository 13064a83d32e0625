/** Every reachable state of a backtest keeps the market maker inside its band. */
module MarketMakerBand {
  import opened Orders
  import opened PriorityBook
  import opened BookInvariant
  import opened BookRuns
  import opened Backtest
  import opened BacktestLaws
  import opened BacktestRuns
  import opened BacktestTheorems
  import opened MarketMakers
  import P = Portfolios

  // ----- the market maker's own placements -----

  function BidAfter(q: Quotes, side: Side, id: nat): nat {
    if side.Buy? then id else q.bidId
  }

  function AskAfter(q: Quotes, side: Side, id: nat): nat {
    if side.Buy? then q.askId else id
  }

  function Other(q: Quotes, side: Side): nat {
    if side.Buy? then q.askId else q.bidId
  }

  function Same(q: Quotes, side: Side): nat {
    if side.Buy? then q.bidId else q.askId
  }

  function Quoted(d: Desk, m: nat, side: Side, price: int, qty: int): Desk {
    var id := d.world.book.nextId;
    Desk(OwnPlace(d.world, m, side, price, qty),
         d.quotes.(bidId := BidAfter(d.quotes, side, id), askId := AskAfter(d.quotes, side, id)))
  }

  function OwnNew(d: Desk, m: nat, side: Side, price: int, qty: int): seq<Credit> {
    OwnCredits(d.world.routing[d.world.book.nextId := m], m, side, TradesOf(d.world, side, price, qty),
               |d.world.ops|, 0)
  }

  lemma QuotedKeepsQuotes(d: Desk, m: nat, side: Side, price: int, qty: int)
    requires Backtest.Inv(d.world) && m < |d.world.accounts| && QuotesOk(d, m) && Same(d.quotes, side) == 0
    ensures QuotesOk(Quoted(d, m, side, price, qty), m)
  {
    hide PriorityBook.Inv, Place, Resting, Run, OwnCredits, Losses, Deliver, Attributed, CreditsOk;
    var w, v := d.world, OwnPlace(d.world, m, side, price, qty);
    NoOrderZero(w);
    forall id | id in v.orders && v.orders[id].owner == Strategy(m) && Resting(v.book, id) > 0
      ensures id == BidAfter(d.quotes, side, w.book.nextId) || id == AskAfter(d.quotes, side, w.book.nextId)
    {
      if id != w.book.nextId {
        assert id in w.orders && v.orders[id] == w.orders[id];
        RestingOld(w, side, price, qty, id);
      }
    }
  }

  lemma OwnConcernsQuotes(d: Desk, m: nat, side: Side, price: int, qty: int, i: nat)
    requires Backtest.Inv(d.world) && m < |d.world.accounts| && QuotesOk(d, m) && Same(d.quotes, side) == 0
    requires i < |OwnNew(d, m, side, price, qty)|
    ensures var q := Quoted(d, m, side, price, qty).quotes;
            OnlyQuotes(OwnNew(d, m, side, price, qty)[i], m, q.bidId, q.askId)
  {
    hide PriorityBook.Inv, Place, Resting, Run, OwnCredits, Losses, Deliver, Attributed, CreditOk;
    var w := d.world;
    var d' := Quoted(d, m, side, price, qty);
    var v := d'.world;
    var ts := TradesOf(w, side, price, qty);
    var cs := OwnNew(d, m, side, price, qty);
    OwnPlaceKeepsInv(w, m, side, price, qty);
    QuotedKeepsQuotes(d, m, side, price, qty);
    NoOrderZero(v);
    assert v.credits[|w.credits| + i] == cs[i];
    assert CreditOk(v, cs[i]);
    OwnCreditsMade(v.routing, m, side, ts, |w.ops|, 0);
    MakersRest(w, side, price, qty);
    PlacementIsFair(w, side, price, qty);
    var c := cs[i];
    assert MakerOk(v.routing, side, ts, |w.ops|, c) || TakerOk(m, side, ts, |w.ops|, c);
    if c.strategy == m && !TakerOk(m, side, ts, |w.ops|, c) {
      MakerIsQuote(d, m, side, price, qty, c);
    }
    CreditIsQuote(v, c, m, d'.quotes.bidId, d'.quotes.askId);
  }

  lemma MakerIsQuote(d: Desk, m: nat, side: Side, price: int, qty: int, c: Credit)
    requires Backtest.Inv(d.world) && QuotesOk(d, m) && c.strategy == m
    requires var w := d.world;
             var ts := TradesOf(w, side, price, qty);
             && MakerOk(w.routing[w.book.nextId := m], side, ts, |w.ops|, c)
             && Resting(w.book, ts[c.index].makerId) > 0
             && ts[c.index].makerId in w.orders
    ensures c.order == d.quotes.bidId || c.order == d.quotes.askId
  {
    hide PriorityBook.Inv, Place, Resting, Run, Attributed, CreditsOk, AccountsOk;
    assert c.order in d.world.routing;
    assert d.world.orders[c.order].owner == Strategy(m);
  }

  /** A quote moves the position by what it takes, less what its own opposite quote gives. */
  lemma OwnMoves(d: Desk, m: nat, side: Side, price: int, qty: int)
    requires Backtest.Inv(d.world) && m < |d.world.accounts| && QuotesOk(d, m) && Same(d.quotes, side) == 0
    ensures var w, v := d.world, OwnPlace(d.world, m, side, price, qty);
            var ts := TradesOf(w, side, price, qty);
            var given := CreditedQty(OwnNew(d, m, side, price, qty), Other(d.quotes, side));
            && PositionOf(v, m) == PositionOf(w, m) + Directed(side, Total(ts) - given)
            && 0 <= given <= MadeBy(ts, Other(d.quotes, side)) && Total(ts) >= 0
  {
    hide PriorityBook.Inv, Place, Resting, Run, OwnCredits, Losses, Deliver, CreditedQty, FillsOf, Total, MadeBy;
    var w := d.world;
    var d' := Quoted(d, m, side, price, qty);
    var v, q := d'.world, d'.quotes;
    var ts, id, other := TradesOf(w, side, price, qty), w.book.nextId, Other(d.quotes, side);
    var cs := OwnNew(d, m, side, price, qty);
    OwnPlaceKeepsInv(w, m, side, price, qty);
    forall i | 0 <= i < |cs|
      ensures OnlyQuotes(cs[i], m, q.bidId, q.askId)
    {
      OwnConcernsQuotes(d, m, side, price, qty, i);
    }
    NetOfQuotes(cs, m, q.bidId, q.askId);
    PositionMoves(w, v, cs, m);
    PlacementIsFair(w, side, price, qty);
    assert ts[0..] == ts;
    OwnCredited(v.routing, m, side, ts, |w.ops|, 0, id, id);
    OwnCredited(v.routing, m, side, ts, |w.ops|, 0, other, id);
    PlacementIgnores(w.book, side, price, qty, id);
    NewIdIsNew(w, other);
    MadeBySign(ts, other);
    PositiveTotal(ts);
  }

  lemma NewQuoteRests(w: World, side: Side, price: int, qty: int)
    requires Backtest.Inv(w)
    ensures var r := Place(w.book, side, price, qty);
            Resting(r.book, w.book.nextId) <= Max(qty, 0) - Total(r.trades)
  {
    PlaceConserves(w.book, side, price, qty, w.book.nextId);
    PlacementIgnores(w.book, side, price, qty, w.book.nextId);
    PlacementSigns(w.book, side, price, qty, w.book.nextId);
    RestsHasQty(w.book, w.book.nextId);
  }

  lemma QuoteBidKeeps(c: Config, d: Desk, m: nat, mid: int, pos: int)
    requires DeskInv(c, d, m) && d.quotes.bidId == 0 && PositionOf(d.world, m) <= pos
    ensures var r := QuoteBid(c, d, m, mid, pos);
            && DeskInv(c, r, m)
            && r.quotes.askId == d.quotes.askId
            && (d.quotes.askId == 0 ==> PositionOf(r.world, m) >= PositionOf(d.world, m))
  {
    hide PriorityBook.Inv, Place, Resting, Run, OwnCredits, Losses, Deliver, CreditedQty, FillsOf, Total, MadeBy,
         Backtest.Inv, QuotesOk, TradesOf;
    if pos <= c.limit {
      var price, w := mid - c.spread, d.world;
      OwnPlaceKeepsInv(w, m, Buy, price, c.quoteQty);
      QuotedKeepsQuotes(d, m, Buy, price, c.quoteQty);
      OwnMoves(d, m, Buy, price, c.quoteQty);
      NewQuoteRests(w, Buy, price, c.quoteQty);
      OtherRests(d, m, Buy, price, c.quoteQty);
    }
  }

  lemma QuoteAskKeeps(c: Config, d: Desk, m: nat, mid: int, pos: int)
    requires DeskInv(c, d, m) && d.quotes.askId == 0 && PositionOf(d.world, m) >= pos
    ensures DeskInv(c, QuoteAsk(c, d, m, mid, pos), m)
  {
    hide PriorityBook.Inv, Place, Resting, Run, OwnCredits, Losses, Deliver, CreditedQty, FillsOf, Total, MadeBy,
         Backtest.Inv, QuotesOk, TradesOf;
    if pos >= -c.limit {
      var price, w := mid + c.spread, d.world;
      OwnPlaceKeepsInv(w, m, Sell, price, c.quoteQty);
      QuotedKeepsQuotes(d, m, Sell, price, c.quoteQty);
      OwnMoves(d, m, Sell, price, c.quoteQty);
      NewQuoteRests(w, Sell, price, c.quoteQty);
      OtherRests(d, m, Sell, price, c.quoteQty);
    }
  }

  /** The opposite quote loses what it made; if there is none it made nothing. */
  lemma OtherRests(d: Desk, m: nat, side: Side, price: int, qty: int)
    requires Backtest.Inv(d.world) && QuotesOk(d, m)
    ensures var o := Other(d.quotes, side);
            var r := Place(d.world.book, side, price, qty);
            && Resting(r.book, o) == Resting(d.world.book, o) - MadeBy(TradesOf(d.world, side, price, qty), o)
            && (o == 0 ==> MadeBy(TradesOf(d.world, side, price, qty), o) == 0)
            && Place(d.world.book, side, price, qty).trades == TradesOf(d.world, side, price, qty)
  {
    var o := Other(d.quotes, side);
    NewIdIsNew(d.world, o);
    RestingOld(d.world, side, price, qty, o);
    if o == 0 {
      NoOrderZero(d.world);
      PlacementIsFair(d.world, side, price, qty);
      NotMade(TradesOf(d.world, side, price, qty), 0);
    }
  }

  // ----- cancels -----

  /** Somebody's cancel, perhaps of a quote that is then forgotten. */
  lemma CancelKeepsDesk(c: Config, d: Desk, v: World, m: nat, x: nat, q: Quotes)
    requires DeskInv(c, d, m) && Backtest.Inv(v)
    requires v.book == Cancel(d.world.book, x) && v.orders == d.world.orders && v.credits == d.world.credits
    requires |v.accounts| == |d.world.accounts|
    requires q.bidId == d.quotes.bidId || (q.bidId == 0 && d.quotes.bidId == x)
    requires q.askId == d.quotes.askId || (q.askId == 0 && d.quotes.askId == x)
    ensures DeskInv(c, Desk(v, q), m) && PositionOf(v, m) == PositionOf(d.world, m)
  {
    hide PriorityBook.Inv, Cancel, Resting, Run, FillsOf, P.OnFills, Attributed, CreditsOk;
    NoOrderZero(v);
    RestingAfterCancel(d.world.book, x, d.quotes.bidId);
    RestingAfterCancel(d.world.book, x, d.quotes.askId);
    RestsHasQty(d.world.book, d.quotes.bidId);
    RestsHasQty(d.world.book, d.quotes.askId);
    forall id | id in v.orders && v.orders[id].owner == Strategy(m) && Resting(v.book, id) > 0
      ensures id == q.bidId || id == q.askId
    {
      RestingAfterCancel(d.world.book, x, id);
    }
  }

  lemma OwnCancelKeepsInv(w: World, s: nat, id: nat)
    requires Backtest.Inv(w)
    ensures var v := OwnCancel(w, s, id);
            && Backtest.Inv(v) && v.book == Cancel(w.book, id) && v.orders == w.orders
            && v.credits == w.credits && |v.accounts| == |w.accounts|
  {
    hide Backtest.Inv;
    CancelStepKeepsInv(w, OwnCancel(w, s, id), id);
  }

  lemma PullBidKeeps(c: Config, d: Desk, m: nat)
    requires DeskInv(c, d, m)
    ensures var r := PullBid(d, m);
            DeskInv(c, r, m) && r.quotes.bidId == 0 && r.quotes.askId == d.quotes.askId
  {
    hide Backtest.Inv, QuotesOk, Banded, OwnCancel;
    if d.quotes.bidId != 0 {
      OwnCancelKeepsInv(d.world, m, d.quotes.bidId);
      CancelKeepsDesk(c, d, OwnCancel(d.world, m, d.quotes.bidId), m, d.quotes.bidId, d.quotes.(bidId := 0));
    }
  }

  lemma PullAskKeeps(c: Config, d: Desk, m: nat)
    requires DeskInv(c, d, m)
    ensures var r := PullAsk(d, m);
            DeskInv(c, r, m) && r.quotes.askId == 0 && r.quotes.bidId == d.quotes.bidId
  {
    hide Backtest.Inv, QuotesOk, Banded, OwnCancel;
    if d.quotes.askId != 0 {
      OwnCancelKeepsInv(d.world, m, d.quotes.askId);
      CancelKeepsDesk(c, d, OwnCancel(d.world, m, d.quotes.askId), m, d.quotes.askId, d.quotes.(askId := 0));
    }
  }

  // ----- a tick -----

  /** The position in the band, whatever the quotes still do. */
  ghost predicate InBand(c: Config, d: Desk, m: nat) {
    DeskInv(c, d, m) && -Bound(c) <= PositionOf(d.world, m) <= Bound(c)
  }

  lemma BandFromInv(c: Config, d: Desk, m: nat)
    requires DeskInv(c, d, m)
    ensures InBand(c, d, m)
  {
    RestsHasQty(d.world.book, d.quotes.bidId);
    RestsHasQty(d.world.book, d.quotes.askId);
  }

  /** Every engine operation inside a re-quote leaves the desk in its band. */
  lemma RequoteStaysInBand(c: Config, d: Desk, m: nat, mid: int)
    requires DeskInv(c, d, m)
    ensures var a, b := PullBid(d, m), PullQuotes(d, m);
            var pos := PositionOf(b.world, m);
            var e := QuoteBid(c, b, m, mid, pos);
            && InBand(c, a, m) && InBand(c, b, m) && InBand(c, e, m)
            && InBand(c, QuoteAsk(c, e, m, mid, pos), m)
            && InBand(c, PlaceQuotes(c, b, m, mid), m)
  {
    hide DeskInv, InBand, PullBid, PullAsk, QuoteBid, QuoteAsk;
    var a, b := PullBid(d, m), PullQuotes(d, m);
    var pos := PositionOf(b.world, m);
    var e := QuoteBid(c, b, m, mid, pos);
    PullBidKeeps(c, d, m);
    PullAskKeeps(c, a, m);
    QuoteBidKeeps(c, b, m, mid, pos);
    QuoteAskKeeps(c, e, m, mid, pos);
    RememberMid(c, QuoteAsk(c, e, m, mid, pos), m, mid);
    BandFromInv(c, a, m);
    BandFromInv(c, b, m);
    BandFromInv(c, e, m);
    BandFromInv(c, QuoteAsk(c, e, m, mid, pos), m);
    BandFromInv(c, PlaceQuotes(c, b, m, mid), m);
  }

  /** The remembered mid and the tick counter do not matter to the invariant. */
  lemma RememberMid(c: Config, d: Desk, m: nat, mid: int)
    requires DeskInv(c, d, m)
    ensures DeskInv(c, d.(quotes := d.quotes.(lastMid := mid)), m)
    ensures DeskInv(c, d.(quotes := d.quotes.(ticks := d.quotes.ticks + 1)), m)
  {
    hide Backtest.Inv, Resting;
  }

  lemma TickKeeps(c: Config, d: Desk, m: nat, top: BookTop)
    requires DeskInv(c, d, m) && c.interval > 0
    ensures DeskInv(c, OnTick(c, d, m, top), m)
  {
    hide DeskInv, PullQuotes, PlaceQuotes;
    RememberMid(c, d, m, top.mid);
    RequoteStaysInBand(c, d.(quotes := d.quotes.(ticks := d.quotes.ticks + 1)), m, top.mid);
  }

  // ----- every run -----

  /** A tick shown to the market maker, or anything the rest of the backtest does. */
  datatype Move = Tick(top: BookTop) | Elsewhere(step: Step)

  /** The rest of the backtest never places or cancels in the market maker's name. */
  predicate Allowed(strategies: nat, m: nat, move: Move) {
    move.Elsewhere? ==>
      && Knows(strategies, move.step)
      && (move.step.Quote? ==> move.step.strategy != m)
      && (move.step.Pull? ==> move.step.strategy != m)
  }

  function Moved(c: Config, d: Desk, m: nat, move: Move): Desk
    requires c.interval > 0
  {
    match move
    case Tick(top) => OnTick(c, d, m, top)
    case Elsewhere(step) => d.(world := Next(d.world, step))
  }

  function Replayed(c: Config, d: Desk, m: nat, moves: seq<Move>): Desk
    requires c.interval > 0
  {
    if moves == [] then d else Moved(c, Replayed(c, d, m, moves[..|moves| - 1]), m, moves[|moves| - 1])
  }

  function Opening(capacity: nat, strategies: nat): Desk {
    Desk(Start(capacity, strategies), Quotes(0, 0, 0, 0))
  }

  lemma ElsewhereKeeps(c: Config, d: Desk, m: nat, step: Step)
    requires DeskInv(c, d, m) && Allowed(|d.world.accounts|, m, Elsewhere(step))
    ensures DeskInv(c, Desk(Next(d.world, step), d.quotes), m)
    ensures |Next(d.world, step).accounts| == |d.world.accounts|
  {
    hide Backtest.Inv, QuotesOk, Banded, ExoAdd, ExoCancel, OwnPlace, OwnCancel;
    var w := d.world;
    assert Backtest.Inv(w);
    NextKeepsInv(w, step);
    match step
    case Add(side, price, qty, extId) =>
      ExoAddIsTheirs(w, m, side, price, qty, extId);
      TheirsKeepsDesk(c, d, Next(w, step), m, Exogenous, side, price, qty,
                      ExoCredits(w.routing, side, TradesOf(w, side, price, qty), |w.ops|, 0));
    case Remove(extId) =>
      ExoCancelKeeps(c, d, m, extId);
    case TradePrint(price) =>
      PrintKeeps(c, d, m, price);
    case Quote(s, side, price, qty) =>
      QuoteIsTheirs(w, m, s, side, price, qty);
      TheirsKeepsDesk(c, d, Next(w, step), m, Strategy(s), side, price, qty,
                      OwnCredits(OwnPlace(w, s, side, price, qty).routing, s, side,
                                 TradesOf(w, side, price, qty), |w.ops|, 0));
    case Pull(s, id) =>
      OwnCancelKeepsInv(w, s, id);
      CancelKeepsDesk(c, d, Next(w, step), m, id, d.quotes);
  }

  lemma ExoCancelKeeps(c: Config, d: Desk, m: nat, extId: nat)
    requires DeskInv(c, d, m) && Backtest.Inv(ExoCancel(d.world, extId))
    ensures DeskInv(c, Desk(ExoCancel(d.world, extId), d.quotes), m)
  {
    hide Backtest.Inv, QuotesOk, Banded, Cancel;
    if extId in d.world.ext {
      CancelKeepsDesk(c, d, ExoCancel(d.world, extId), m, d.world.ext[extId], d.quotes);
    }
  }

  lemma PrintKeeps(c: Config, d: Desk, m: nat, price: int)
    requires DeskInv(c, d, m) && Backtest.Inv(Print(d.world, price))
    ensures DeskInv(c, Desk(Print(d.world, price), d.quotes), m)
  {
    hide Backtest.Inv, Resting;
  }

  lemma OpeningInv(c: Config, capacity: nat, strategies: nat, m: nat)
    requires m < strategies
    ensures DeskInv(c, Opening(capacity, strategies), m)
  {
    StartInv(capacity, strategies);
  }

  /**
    The inventory bound. In every reachable state, whatever the exogenous flow and the other
    strategies did and whatever book tops were shown, the market maker's position is at most
    `limit + quoteQty` either way (0 if that is negative), and its live orders are at most the one
    bid and the one ask it remembers.
   */
  lemma {:induction false} InventoryIsBounded(c: Config, capacity: nat, strategies: nat, m: nat, moves: seq<Move>)
    requires c.interval > 0 && m < strategies
    requires forall i :: 0 <= i < |moves| ==> Allowed(strategies, m, moves[i])
    ensures var d := Replayed(c, Opening(capacity, strategies), m, moves);
            InBand(c, d, m) && |d.world.accounts| == strategies
  {
    hide DeskInv, InBand, OnTick, Next;
    var d := Replayed(c, Opening(capacity, strategies), m, moves);
    if moves == [] {
      OpeningInv(c, capacity, strategies, m);
    } else {
      var n := |moves| - 1;
      InventoryIsBounded(c, capacity, strategies, m, moves[..n]);
      var e := Replayed(c, Opening(capacity, strategies), m, moves[..n]);
      InBandHasInv(c, e, m);
      match moves[n]
      case Tick(top) =>
        TickKeeps(c, e, m, top);
        TickCount(c, e, m, top);
      case Elsewhere(step) =>
        ElsewhereKeeps(c, e, m, step);
    }
    BandFromInv(c, d, m);
  }

  /** What the market maker's orders really traded leaves the band by no more than what was lost. */
  lemma HoldingsInBand(c: Config, d: Desk, m: nat)
    requires InBand(c, d, m)
    ensures var held, lost := Holdings(d.world, m, d.world.book.nextId), NetLost(d.world, m, d.world.book.nextId);
            && -Bound(c) + lost <= held <= Bound(c) + lost
            && (d.world.lost == [] ==> -Bound(c) <= held <= Bound(c))
  {
    hide Backtest.Inv, Holdings, NetLost;
    PositionIsHoldings(d.world, m);
  }

  lemma InBandHasInv(c: Config, d: Desk, m: nat)
    requires InBand(c, d, m)
    ensures DeskInv(c, d, m)
  {
    hide DeskInv;
  }

  lemma TickCount(c: Config, d: Desk, m: nat, top: BookTop)
    requires c.interval > 0
    ensures |OnTick(c, d, m, top).world.accounts| == |d.world.accounts|
  {
    hide OwnPlace, OwnCancel, Requotes;
    var counted := d.(quotes := d.quotes.(ticks := d.quotes.ticks + 1));
    var b := PullQuotes(counted, m);
    var e := QuoteBid(c, b, m, top.mid, PositionOf(b.world, m));
    OwnCount(d.world, m, d.quotes.bidId, Buy, 0, 0);
    OwnCount(PullBid(counted, m).world, m, d.quotes.askId, Buy, 0, 0);
    OwnCount(b.world, m, 0, Buy, top.mid - c.spread, c.quoteQty);
    OwnCount(e.world, m, 0, Sell, top.mid + c.spread, c.quoteQty);
  }

  lemma OwnCount(w: World, m: nat, id: nat, side: Side, price: int, qty: int)
    ensures |OwnPlace(w, m, side, price, qty).accounts| == |w.accounts|
    ensures |OwnCancel(w, m, id).accounts| == |w.accounts|
  {
    hide Rests, Cancel, Place, OwnCredits, Losses;
  }

  // ----- a re-quote, step by step -----

  lemma PullsAreSteps(d: Desk, m: nat)
    ensures d.quotes.bidId != 0 ==> PullBid(d, m).world == Next(d.world, Pull(m, d.quotes.bidId))
    ensures d.quotes.askId != 0 ==> PullAsk(d, m).world == Next(d.world, Pull(m, d.quotes.askId))
    ensures d.quotes.bidId == 0 ==> PullBid(d, m) == d
    ensures d.quotes.askId == 0 ==> PullAsk(d, m) == d
  {
    hide OwnCancel;
  }

  lemma QuotesAreSteps(c: Config, d: Desk, m: nat, mid: int, pos: int)
    ensures pos <= c.limit ==>
              QuoteBid(c, d, m, mid, pos).world == Next(d.world, Quote(m, Buy, mid - c.spread, c.quoteQty))
    ensures pos >= -c.limit ==>
              QuoteAsk(c, d, m, mid, pos).world == Next(d.world, Quote(m, Sell, mid + c.spread, c.quoteQty))
    ensures pos > c.limit ==> QuoteBid(c, d, m, mid, pos) == d
    ensures pos < -c.limit ==> QuoteAsk(c, d, m, mid, pos) == d
  {
    hide OwnPlace;
  }
}
