/**
  The backtest as a transition system: exogenous flow and strategies act on one book, and fills are
  credited to strategies through the routing table. `orders`, `ops`, `credits` and `lost` only record
  history, so that the laws can be stated.
 */
module Backtest {
  import opened Orders
  import opened PriorityBook
  import opened BookRuns
  import P = Portfolios

  /** Who placed an order: a strategy, or the exogenous flow. */
  datatype Owner = Exogenous | Strategy(index: nat)

  datatype Info = Info(owner: Owner, side: Side, qty: int)

  /** A fill delivered to `strategy` for `order`: side `taker` or maker of trade `index` of operation `op`. */
  datatype Credit = Credit(strategy: nat, order: nat, fill: P.Fill, op: nat, index: nat, taker: bool)

  /** Quantity a strategy's order traded without the strategy being told. */
  datatype Loss = Loss(order: nat, qty: int)

  datatype Standing = Standing(portfolio: P.Position, submitted: nat, filled: nat, canceled: nat)

  datatype World = World(
    capacity: nat,
    book: Book,
    routing: map<nat, nat>,
    ext: map<nat, nat>,
    lastPx: int,
    accounts: seq<Standing>,
    ops: seq<Op>,
    orders: map<nat, Info>,
    credits: seq<Credit>,
    lost: seq<Loss>)

  function Start(capacity: nat, strategies: nat): World {
    World(capacity, Empty(capacity), map[], map[], 0,
          seq(strategies, i => Standing(P.FLAT, 0, 0, 0)), [], map[], [], [])
  }

  // ----- delivering the fills of one placement -----

  function MakerCredit(s: nat, side: Side, t: Trade, op: nat, index: nat): Credit {
    Credit(s, t.makerId, P.Fill(side.Opposite(), t.price, t.qty), op, index, false)
  }

  function TakerCredit(s: nat, side: Side, t: Trade, op: nat, index: nat): Credit {
    Credit(s, t.takerId, P.Fill(side, t.price, t.qty), op, index, true)
  }

  /** Exogenous flow: a routed maker is credited and its route erased. */
  function ExoCredits(routing: map<nat, nat>, side: Side, ts: seq<Trade>, op: nat, k: nat): seq<Credit>
    requires k <= |ts|
    decreases |ts| - k
  {
    if k == |ts| then []
    else if ts[k].makerId in routing then
      [MakerCredit(routing[ts[k].makerId], side, ts[k], op, k)]
      + ExoCredits(routing - {ts[k].makerId}, side, ts, op, k + 1)
    else ExoCredits(routing, side, ts, op, k + 1)
  }

  function ExoRouting(routing: map<nat, nat>, ts: seq<Trade>, k: nat): map<nat, nat>
    requires k <= |ts|
    decreases |ts| - k
  {
    if k == |ts| then routing else ExoRouting(routing - {ts[k].makerId}, ts, k + 1)
  }

  /** A strategy's placement: the strategy is credited as taker, a routed maker keeps its route. */
  function OwnCredits(routing: map<nat, nat>, s: nat, side: Side, ts: seq<Trade>, op: nat, k: nat): seq<Credit>
    requires k <= |ts|
    decreases |ts| - k
  {
    if k == |ts| then []
    else
      [TakerCredit(s, side, ts[k], op, k)]
      + (if ts[k].makerId in routing then [MakerCredit(routing[ts[k].makerId], side, ts[k], op, k)] else [])
      + OwnCredits(routing, s, side, ts, op, k + 1)
  }

  function CreditStanding(a: Standing, f: P.Fill): Standing {
    a.(portfolio := P.OnFill(a.portfolio, f), filled := a.filled + 1)
  }

  function Deliver(accounts: seq<Standing>, cs: seq<Credit>): (r: seq<Standing>)
    ensures |r| == |accounts|
  {
    if cs == [] then accounts
    else
      var before := Deliver(accounts, cs[..|cs| - 1]);
      var c := cs[|cs| - 1];
      if c.strategy < |before| then before[c.strategy := CreditStanding(before[c.strategy], c.fill)] else before
  }

  predicate OwnedByStrategy(orders: map<nat, Info>, id: nat) {
    id in orders && orders[id].owner.Strategy?
  }

  /** Makers owned by a strategy but no longer routed. */
  function Losses(routing: map<nat, nat>, orders: map<nat, Info>, ts: seq<Trade>, k: nat): seq<Loss>
    requires k <= |ts|
    decreases |ts| - k
  {
    if k == |ts| then []
    else
      (if OwnedByStrategy(orders, ts[k].makerId) && ts[k].makerId !in routing
       then [Loss(ts[k].makerId, ts[k].qty)] else [])
      + Losses(routing, orders, ts, k + 1)
  }

  // ----- operations -----

  /** The book's part of a placement, and the history it leaves. */
  function Submit(w: World, owner: Owner, side: Side, price: int, qty: int): World {
    w.(book := Place(w.book, side, price, qty).book,
       ops := w.ops + [PlaceOp(side, price, qty)],
       orders := w.orders[w.book.nextId := Info(owner, side, qty)])
  }

  function TradesOf(w: World, side: Side, price: int, qty: int): seq<Trade> {
    Place(w.book, side, price, qty).trades
  }

  function ExoAdd(w: World, side: Side, price: int, qty: int, extId: nat): World {
    var ts := TradesOf(w, side, price, qty);
    var cs := ExoCredits(w.routing, side, ts, |w.ops|, 0);
    var v := Submit(w, Exogenous, side, price, qty);
    v.(ext := if extId != 0 then w.ext[extId := w.book.nextId] else w.ext,
       lastPx := if ts == [] then w.lastPx else ts[|ts| - 1].price,
       accounts := Deliver(w.accounts, cs),
       routing := ExoRouting(w.routing, ts, 0),
       credits := w.credits + cs,
       lost := w.lost + Losses(w.routing, w.orders, ts, 0))
  }

  function ExoCancel(w: World, extId: nat): World {
    if extId in w.ext then
      w.(book := Cancel(w.book, w.ext[extId]), ops := w.ops + [CancelOp(w.ext[extId])], ext := w.ext - {extId})
    else w
  }

  function Print(w: World, price: int): World {
    w.(lastPx := price)
  }

  function Bump(accounts: seq<Standing>, s: nat, submitted: nat, canceled: nat): seq<Standing> {
    if s < |accounts| then
      accounts[s := accounts[s].(submitted := accounts[s].submitted + submitted,
                                 canceled := accounts[s].canceled + canceled)]
    else accounts
  }

  function OwnPlace(w: World, s: nat, side: Side, price: int, qty: int): World {
    var ts := TradesOf(w, side, price, qty);
    var routing := w.routing[w.book.nextId := s];
    var cs := OwnCredits(routing, s, side, ts, |w.ops|, 0);
    Submit(w, Strategy(s), side, price, qty)
    .(accounts := Deliver(Bump(w.accounts, s, 1, 0), cs),
      routing := routing,
      credits := w.credits + cs,
      lost := w.lost + Losses(routing, w.orders, ts, 0))
  }

  /** Any id may be named; only a resting order is cancelled and unrouted. */
  function OwnCancel(w: World, s: nat, id: nat): World {
    if Rests(w.book, id) then
      w.(book := Cancel(w.book, id), ops := w.ops + [CancelOp(id)],
         accounts := Bump(w.accounts, s, 0, 1), routing := w.routing - {id})
    else
      w.(ops := w.ops + [CancelOp(id)])
  }

  // ----- what is being counted -----

  function CreditedQty(cs: seq<Credit>, id: nat): int {
    if cs == [] then 0
    else CreditedQty(cs[..|cs| - 1], id) + (if cs[|cs| - 1].order == id then cs[|cs| - 1].fill.qty else 0)
  }

  function LostQty(ls: seq<Loss>, id: nat): int {
    if ls == [] then 0
    else LostQty(ls[..|ls| - 1], id) + (if ls[|ls| - 1].order == id then ls[|ls| - 1].qty else 0)
  }

  function FillsOf(cs: seq<Credit>, s: nat): seq<P.Fill> {
    if cs == [] then []
    else FillsOf(cs[..|cs| - 1], s) + (if cs[|cs| - 1].strategy == s then [cs[|cs| - 1].fill] else [])
  }

  /** Quantity an order has traded, as taker and as maker. */
  function TradedQty(w: World, id: nat): int {
    var a := Ledger(Run(Empty(w.capacity), w.ops).log, id);
    a.taken + a.made
  }

  // ----- the invariant -----

  /** The book is what the recorded operations make of an empty one. */
  ghost predicate Recorded(w: World) {
    w.book == Run(Empty(w.capacity), w.ops).book
  }

  ghost predicate HasId(q: seq<Order>, id: nat) {
    exists k :: 0 <= k < |q| && q[k].id == id
  }

  ghost predicate OrdersOk(w: World) {
    && (forall id :: id in w.orders <==> 1 <= id < w.book.nextId)
    && (forall id :: id in w.orders && w.orders[id].owner.Strategy? ==> w.orders[id].owner.index < |w.accounts|)
    && (forall side, id :: HasId(SideOf(w.book, side), id) ==> id in w.orders && w.orders[id].side == side)
  }

  ghost predicate RoutingOk(w: World) {
    forall id :: id in w.routing ==> id in w.orders && w.orders[id].owner == Strategy(w.routing[id])
  }

  /** The credit is for a trade that happened, to the strategy that placed the order, on its side. */
  ghost predicate CreditOk(w: World, c: Credit) {
    var log := Run(Empty(w.capacity), w.ops).log;
    && c.order in w.orders
    && w.orders[c.order].owner == Strategy(c.strategy) && w.orders[c.order].side == c.fill.side
    && c.op < |log| && log[c.op].Placed? && c.index < |log[c.op].trades|
    && var t := log[c.op].trades[c.index];
       t.price == c.fill.price && t.qty == c.fill.qty && c.order == (if c.taker then t.takerId else t.makerId)
  }

  ghost predicate CreditsOk(w: World) {
    forall i :: 0 <= i < |w.credits| ==> CreditOk(w, w.credits[i])
  }

  /** Every portfolio is the sum of the strategy's credits. */
  ghost predicate AccountsOk(w: World) {
    forall s :: 0 <= s < |w.accounts| ==> w.accounts[s].portfolio == P.OnFills(FillsOf(w.credits, s))
  }

  /** For a strategy's order, what it traded was credited or lost. */
  ghost predicate Attributed(w: World) {
    forall id :: id in w.orders && w.orders[id].owner.Strategy? ==>
      CreditedQty(w.credits, id) + LostQty(w.lost, id) == TradedQty(w, id)
  }

  ghost predicate LossesOk(w: World) {
    forall i :: 0 <= i < |w.lost| ==> OwnedByStrategy(w.orders, w.lost[i].order) && w.lost[i].order !in w.routing
  }

  ghost predicate Inv(w: World) {
    && Recorded(w) && PriorityBook.Inv(w.book) && OrdersOk(w) && RoutingOk(w)
    && CreditsOk(w) && AccountsOk(w) && LossesOk(w) && Attributed(w)
  }
}
