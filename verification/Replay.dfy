/** The replay loop over the linked order book: routing tables, strategies and the market maker as objects. */
module Replays {
  import opened Orders
  import opened PriorityBook
  import opened Backtest
  import opened BacktestRuns
  import opened MarketMakers
  import opened MarketMakerBand
  import opened MarketMakerRuns
  import P = Portfolios
  import opened Engines

  class StrategyState {
    const portfolio: P.Portfolio
    var submitted: nat
    var filled: nat
    var canceled: nat

    ghost function View(): Standing
      reads this, portfolio
    {
      Standing(portfolio.View(), submitted, filled, canceled)
    }

    constructor ()
      ensures fresh(portfolio) && View() == Standing(P.FLAT, 0, 0, 0)
    {
      portfolio := new P.Portfolio();
      submitted, filled, canceled := 0, 0, 0;
    }

    method OnFill(side: Side, price: int, qty: int)
      modifies this, portfolio
      ensures View() == CreditStanding(old(View()), P.Fill(side, price, qty))
    {
      portfolio.Deliver(side, price, qty);
      filled := filled + 1;
    }
  }

  /** One strategy's standing after one more fill. */
  function Paid(accounts: seq<Standing>, s: nat, f: P.Fill): seq<Standing>
    requires s < |accounts|
  {
    accounts[s := CreditStanding(accounts[s], f)]
  }

  lemma {:induction false} DeliverFirst(accounts: seq<Standing>, c: Credit, cs: seq<Credit>)
    requires c.strategy < |accounts|
    ensures Deliver(accounts, [c] + cs) == Deliver(Paid(accounts, c.strategy, c.fill), cs)
  {
    if cs == [] {
      assert [c] + cs == [c] && [c][..0] == [];
    } else {
      var n := |cs| - 1;
      DeliverFirst(accounts, c, cs[..n]);
      assert ([c] + cs)[..n + 1] == [c] + cs[..n];
    }
  }

  lemma OwnDeliver(accounts: seq<Standing>, routing: map<nat, nat>, s: nat, side: Side, ts: seq<Trade>, op: nat, k: nat)
    requires k < |ts| && s < |accounts| && forall id :: id in routing ==> routing[id] < |accounts|
    ensures var paid := Paid(accounts, s, P.Fill(side, ts[k].price, ts[k].qty));
            Deliver(accounts, OwnCredits(routing, s, side, ts, op, k))
            == Deliver(if ts[k].makerId in routing
                       then Paid(paid, routing[ts[k].makerId], P.Fill(side.Opposite(), ts[k].price, ts[k].qty))
                       else paid,
                       OwnCredits(routing, s, side, ts, op, k + 1))
  {
    hide Deliver;
    var a := TakerCredit(s, side, ts[k], op, k);
    var rest := OwnCredits(routing, s, side, ts, op, k + 1);
    if ts[k].makerId in routing {
      var m := MakerCredit(routing[ts[k].makerId], side, ts[k], op, k);
      assert [a] + [m] + rest == [a] + ([m] + rest);
      DeliverFirst(accounts, a, [m] + rest);
      DeliverFirst(Paid(accounts, s, a.fill), m, rest);
    } else {
      assert [a] + [] + rest == [a] + rest;
      DeliverFirst(accounts, a, rest);
    }
  }

  lemma OwnDelivered(accounts: seq<Standing>, routing: map<nat, nat>, s: nat, side: Side, ts: seq<Trade>, op: nat)
    ensures Deliver(accounts, OwnCredits(routing, s, side, ts, op, |ts|)) == accounts
  {
  }

  lemma ExoDelivered(accounts: seq<Standing>, routing: map<nat, nat>, side: Side, ts: seq<Trade>, op: nat)
    ensures Deliver(accounts, ExoCredits(routing, side, ts, op, |ts|)) == accounts
  {
  }

  lemma ExoDeliver(accounts: seq<Standing>, routing: map<nat, nat>, side: Side, ts: seq<Trade>, op: nat, k: nat)
    requires k < |ts| && forall id :: id in routing ==> routing[id] < |accounts|
    ensures var maker := ts[k].makerId;
            Deliver(accounts, ExoCredits(routing, side, ts, op, k))
            == Deliver(if maker in routing
                       then Paid(accounts, routing[maker], P.Fill(side.Opposite(), ts[k].price, ts[k].qty))
                       else accounts,
                       ExoCredits(routing - {maker}, side, ts, op, k + 1))
  {
    hide Deliver;
    var maker := ts[k].makerId;
    if maker in routing {
      DeliverFirst(accounts, MakerCredit(routing[maker], side, ts[k], op, k),
                   ExoCredits(routing - {maker}, side, ts, op, k + 1));
    } else {
      assert routing - {maker} == routing;
    }
  }

  lemma ExoUnroute(routing: map<nat, nat>, ts: seq<Trade>, k: nat)
    requires k < |ts|
    ensures ExoRouting(routing, ts, k) == ExoRouting(routing - {ts[k].makerId}, ts, k + 1)
  {
  }

  lemma ExoUnrouted(routing: map<nat, nat>, ts: seq<Trade>)
    ensures ExoRouting(routing, ts, |ts|) == routing
  {
  }

  /** A call some other strategy makes during its turn. */
  datatype Call = PlaceCall(side: Side, price: int, qty: int) | CancelCall(id: nat)

  function Named(s: nat, call: Call): Step {
    match call
    case PlaceCall(side, price, qty) => Quote(s, side, price, qty)
    case CancelCall(id) => Pull(s, id)
  }

  ghost predicate AllAllowed(strategies: nat, m: nat, moves: seq<Move>) {
    forall i :: 0 <= i < |moves| ==> Allowed(strategies, m, moves[i])
  }

  /** `moves` lead from `d` to `e`, none of them by others in the market maker's name. */
  ghost predicate Leads(c: Config, m: nat, strategies: nat, d: Desk, moves: seq<Move>, e: Desk) {
    c.interval > 0 && e == Replayed(c, d, m, moves) && AllAllowed(strategies, m, moves)
  }

  lemma LeadsNowhere(c: Config, m: nat, strategies: nat, d: Desk)
    requires c.interval > 0
    ensures Leads(c, m, strategies, d, [], d)
  {
  }

  lemma LeadsOn(c: Config, m: nat, strategies: nat, d: Desk, moves: seq<Move>, e: Desk, move: Move)
    requires Leads(c, m, strategies, d, moves, e) && Allowed(strategies, m, move)
    ensures Leads(c, m, strategies, d, moves + [move], Moved(c, e, m, move))
  {
    assert (moves + [move])[..|moves|] == moves;
  }

  /** The parts of a strategy's placement, field by field. */
  lemma OwnPlaceParts(w: World, s: nat, side: Side, price: int, qty: int)
    ensures var v := OwnPlace(w, s, side, price, qty);
            var p := Place(w.book, side, price, qty);
            var routing := w.routing[w.book.nextId := s];
            && v.book == p.book && v.routing == routing && v.ext == w.ext && v.lastPx == w.lastPx
            && v.accounts == Deliver(Bump(w.accounts, s, 1, 0), OwnCredits(routing, s, side, p.trades, |w.ops|, 0))
  {
    hide Place, Deliver, Bump, OwnCredits, Losses;
  }

  /** The parts of an exogenous placement. */
  lemma ExoAddParts(w: World, side: Side, price: int, qty: int, extId: nat)
    ensures var v := ExoAdd(w, side, price, qty, extId);
            var p := Place(w.book, side, price, qty);
            && v.book == p.book && v.routing == ExoRouting(w.routing, p.trades, 0)
            && v.ext == (if extId != 0 then w.ext[extId := w.book.nextId] else w.ext)
            && v.lastPx == (if p.trades == [] then w.lastPx else p.trades[|p.trades| - 1].price)
            && v.accounts == Deliver(w.accounts, ExoCredits(w.routing, side, p.trades, |w.ops|, 0))
  {
    hide Place, Deliver, ExoCredits, ExoRouting, Losses;
  }

  class Replay {
    const engine: Engine
    const team: seq<StrategyState>
    /** Order id to the index of the strategy that placed it. */
    var routing: map<nat, nat>
    /** External id of the tick file to engine id. */
    var ext: map<nat, nat>
    var lastPx: int

    /** The state together with its history. */
    ghost var world: World

    ghost predicate Separate() {
      && this !in engine.Repr
      && Portfolios !! engine.Repr
      && (forall i :: 0 <= i < |team| ==> team[i] !in engine.Repr && team[i].portfolio in Portfolios)
      && (forall i, j :: 0 <= i < j < |team| ==> team[i] != team[j] && team[i].portfolio != team[j].portfolio)
    }

    ghost const Portfolios: set<P.Portfolio> := set i | 0 <= i < |team| :: team[i].portfolio

    ghost function Accounts(): (r: seq<Standing>)
      reads team, Portfolios
      ensures |r| == |team|
    {
      seq(|team|, i requires 0 <= i < |team| reads team, Portfolios => team[i].View())
    }

    ghost predicate Valid()
      reads this, engine.Repr, team, Portfolios
    {
      && Separate()
      && engine.Valid() && world.book == engine.View()
      && world.routing == routing && world.ext == ext && world.lastPx == lastPx
      && world.accounts == Accounts()
      && (forall id :: id in routing ==> routing[id] < |team|)
    }

    constructor (capacity: nat, strategies: nat)
      ensures Valid() && world == Start(capacity, strategies) && |team| == strategies
      ensures fresh(engine.Repr) && fresh(Portfolios) && forall i :: 0 <= i < |team| ==> fresh(team[i])
    {
      hide Engine.Valid, Engine.View;
      var made: seq<StrategyState> := [];
      for k := 0 to strategies
        invariant |made| == k
        invariant forall i :: 0 <= i < k ==>
                    && fresh(made[i]) && fresh(made[i].portfolio)
                    && made[i].View() == Standing(P.FLAT, 0, 0, 0)
        invariant forall i, j :: 0 <= i < j < k ==> made[i] != made[j] && made[i].portfolio != made[j].portfolio
      {
        var s := new StrategyState();
        made := made + [s];
      }
      engine := new Engine(capacity);
      team := made;
      routing, ext, lastPx := map[], map[], 0;
      world := Start(capacity, strategies);
    }

    method ReadPosition(j: nat) returns (pos: int)
      requires Valid() && j < |team|
      ensures pos == PositionOf(world, j)
    {
      hide Engine.Valid, Engine.View, Separate;
      pos := team[j].portfolio.position;
      assert Accounts()[j] == team[j].View();
    }

    /** Delivers one fill to strategy `j`. */
    method Notify(j: nat, side: Side, price: int, qty: int)
      requires Separate() && j < |team|
      modifies team[j], team[j].portfolio
      ensures Accounts() == Paid(old(Accounts()), j, P.Fill(side, price, qty))
    {
      team[j].OnFill(side, price, qty);
      assert forall i :: 0 <= i < |team| && i != j ==> team[i].View() == old(team[i].View());
    }

    // ----- strategies' calls -----

    /** Walks the trades of a strategy's placement, crediting the taker and each routed maker. */
    method CreditOwn(s: nat, side: Side, trades: seq<Trade>, ghost op: nat)
      requires Separate() && engine.Valid() && s < |team| && forall id :: id in routing ==> routing[id] < |team|
      modifies team, Portfolios
      ensures engine.Valid() && engine.View() == old(engine.View())
      ensures Accounts() == Deliver(old(Accounts()), OwnCredits(routing, s, side, trades, op, 0))
    {
      hide Deliver, OwnCredits, Paid, Accounts, Engine.Valid, Engine.View;
      ghost var final := Deliver(Accounts(), OwnCredits(routing, s, side, trades, op, 0));
      for k := 0 to |trades|
        invariant engine.Valid() && engine.View() == old(engine.View())
        invariant Deliver(Accounts(), OwnCredits(routing, s, side, trades, op, k)) == final
      {
        var t := trades[k];
        OwnDeliver(Accounts(), routing, s, side, trades, op, k);
        Notify(s, side, t.price, t.qty);
        if t.makerId in routing {
          Notify(routing[t.makerId], side.Opposite(), t.price, t.qty);
        }
      }
      OwnDelivered(Accounts(), routing, s, side, trades, op);
    }

    /** Walks the trades of an exogenous placement, crediting and unrouting each routed maker. */
    method CreditExogenous(side: Side, trades: seq<Trade>, ghost op: nat)
      requires Separate() && engine.Valid() && forall id :: id in routing ==> routing[id] < |team|
      modifies this, team, Portfolios
      ensures engine.Valid() && engine.View() == old(engine.View())
      ensures Accounts() == Deliver(old(Accounts()), ExoCredits(old(routing), side, trades, op, 0))
      ensures routing == ExoRouting(old(routing), trades, 0)
      ensures lastPx == if trades == [] then old(lastPx) else trades[|trades| - 1].price
      ensures forall id :: id in routing ==> routing[id] < |team|
      ensures ext == old(ext) && world == old(world)
    {
      hide Deliver, ExoCredits, ExoRouting, Paid, Accounts, Engine.Valid, Engine.View;
      ghost var final := Deliver(Accounts(), ExoCredits(routing, side, trades, op, 0));
      for k := 0 to |trades|
        invariant engine.Valid() && engine.View() == old(engine.View())
        invariant Deliver(Accounts(), ExoCredits(routing, side, trades, op, k)) == final
        invariant ExoRouting(routing, trades, k) == ExoRouting(old(routing), trades, 0)
        invariant lastPx == if k == 0 then old(lastPx) else trades[k - 1].price
        invariant forall id :: id in routing ==> routing[id] < |team|
        invariant ext == old(ext) && world == old(world)
      {
        var t := trades[k];
        lastPx := t.price;
        ExoDeliver(Accounts(), routing, side, trades, op, k);
        ExoUnroute(routing, trades, k);
        if t.makerId in routing {
          Notify(routing[t.makerId], side.Opposite(), t.price, t.qty);
          routing := routing - {t.makerId};
        } else {
          assert routing - {t.makerId} == routing;
        }
      }
      ExoDelivered(Accounts(), routing, side, trades, op);
      ExoUnrouted(routing, trades);
    }

    /** The engine's part of a placement; the strategies are not touched yet. */
    method Place(side: Side, price: int, qty: int) returns (id: nat, trades: seq<Trade>)
      requires Separate() && engine.Valid()
      modifies engine.Repr
      ensures engine.Valid() && Accounts() == old(Accounts())
      ensures var r := PriorityBook.Place(old(engine.View()), side, price, qty);
              engine.View() == r.book && id == r.id == old(engine.View()).nextId && trades == r.trades
    {
      hide PriorityBook.Place, Engine.Valid, Engine.View;
      id := engine.PlaceLimit(side, price, qty);
      trades := engine.lastTrades;
    }

    method Withdraw(id: nat) returns (ok: bool)
      requires Separate() && engine.Valid()
      modifies engine.Repr
      ensures engine.Valid() && Accounts() == old(Accounts())
      ensures ok == Rests(old(engine.View()), id) && engine.View() == Cancel(old(engine.View()), id)
    {
      hide Cancel, Rests, Engine.Valid, Engine.View;
      ok := engine.CancelOrder(id);
    }

    /** A strategy's placement: fills reach both sides before the call returns. */
    method PlaceFor(s: nat, side: Side, price: int, qty: int) returns (id: nat)
      requires Valid() && s < |team|
      modifies this, engine.Repr, team, Portfolios
      ensures Valid() && world == OwnPlace(old(world), s, side, price, qty)
      ensures id == old(world).book.nextId
    {
      hide Separate, PriorityBook.Place, OwnPlace, OwnCredits, Deliver, Bump, Engine.Valid, Engine.View, Accounts;
      OwnPlaceParts(world, s, side, price, qty);
      var trades;
      id, trades := Place(side, price, qty);
      routing, world := routing[id := s], OwnPlace(world, s, side, price, qty);
      assert forall x :: x in routing ==> routing[x] < |team|;
      Bumped(s, 1, 0);
      CreditOwn(s, side, trades, |old(world).ops|);
    }

    /** Counts a submission or a cancellation. */
    method Bumped(s: nat, submitted: nat, canceled: nat)
      requires Separate() && engine.Valid() && s < |team|
      modifies team[s]
      ensures engine.Valid() && engine.View() == old(engine.View())
      ensures Accounts() == Bump(old(Accounts()), s, submitted, canceled)
    {
      hide Engine.Valid, Engine.View;
      team[s].submitted := team[s].submitted + submitted;
      team[s].canceled := team[s].canceled + canceled;
    }

    method CancelFor(s: nat, id: nat) returns (ok: bool)
      requires Valid() && s < |team|
      modifies this, engine.Repr, team
      ensures Valid() && world == OwnCancel(old(world), s, id)
      ensures ok == Rests(old(world).book, id)
    {
      hide Separate, Cancel, Rests, Bump, Engine.Valid, Engine.View, Accounts;
      ok := Withdraw(id);
      if ok {
        Bumped(s, 0, 1);
        routing := routing - {id};
      }
      world := OwnCancel(old(world), s, id);
      CancelMisses(old(world).book, id);
    }

    // ----- the tick file's events -----

    method AddExogenous(side: Side, price: int, qty: int, extId: nat)
      requires Valid()
      modifies this, engine.Repr, team, Portfolios
      ensures Valid() && world == ExoAdd(old(world), side, price, qty, extId)
    {
      hide Separate, PriorityBook.Place, ExoAdd, ExoCredits, ExoRouting, Deliver, Engine.Valid, Engine.View, Accounts;
      ExoAddParts(world, side, price, qty, extId);
      var id, trades := Place(side, price, qty);
      if extId != 0 {
        ext := ext[extId := id];
      }
      CreditExogenous(side, trades, |old(world).ops|);
      world := ExoAdd(old(world), side, price, qty, extId);
    }

    method CancelExogenous(extId: nat)
      requires Valid()
      modifies this, engine.Repr
      ensures Valid() && world == ExoCancel(old(world), extId)
    {
      hide Separate, Cancel, Rests, Engine.Valid, Engine.View, Accounts;
      if extId in ext {
        var _ := Withdraw(ext[extId]);
        ext := ext - {extId};
      }
      world := ExoCancel(old(world), extId);
    }

    /** The top of the book as strategies see it. */
    method SnapshotTop() returns (top: BookTop)
      requires Valid()
      ensures top == TopOf(world.book, world.lastPx)
    {
      hide Engine.Valid, Engine.View, Accounts;
      var bid := engine.BestBidPrice();
      var ask := engine.BestAskPrice();
      if ask == INT64_MAX {
        ask := 0;
      }
      var bidQty, askQty := 0, 0;
      if bid != 0 {
        bidQty := engine.QtyAtPrice(Buy, bid);
      }
      if ask != 0 {
        askQty := engine.QtyAtPrice(Sell, ask);
      }
      var mid;
      if bid != 0 && ask != 0 {
        mid := P.TruncDiv(bid + ask, 2);
      } else if bid != 0 {
        mid := bid;
      } else if ask != 0 {
        mid := ask;
      } else {
        mid := lastPx;
      }
      top := BookTop(bid, bidQty, ask, askQty, mid);
    }

    method Handle(step: Step)
      requires Valid() && FromFile(step)
      modifies this, engine.Repr, team, Portfolios
      ensures Valid() && world == Next(old(world), step)
    {
      hide Engine.Valid, Engine.View, Accounts, ExoAdd, ExoCancel;
      match step
      case Add(side, price, qty, extId) => AddExogenous(side, price, qty, extId);
      case Remove(extId) => CancelExogenous(extId);
      case TradePrint(price) =>
        lastPx := price;
        world := Print(world, price);
    }

    /** Strategy `s` makes its calls of one tick. */
    method Obey(s: nat, calls: seq<Call>, c: Config, m: nat, ghost d: Desk, ghost q: Quotes, ghost moves: seq<Move>)
      returns (ghost more: seq<Move>)
      requires Valid() && s < |team| && s != m && Leads(c, m, |team|, d, moves, Desk(world, q))
      modifies this, engine.Repr, team, Portfolios
      ensures Valid() && Leads(c, m, |team|, d, more, Desk(world, q))
    {
      hide Valid, Leads, OwnPlace, OwnCancel;
      more := moves;
      for k := 0 to |calls|
        invariant Valid() && Leads(c, m, |team|, d, more, Desk(world, q))
      {
        LeadsOn(c, m, |team|, d, more, Desk(world, q), Elsewhere(Named(s, calls[k])));
        more := more + [Elsewhere(Named(s, calls[k]))];
        match calls[k]
        case PlaceCall(side, price, qty) =>
          var _ := PlaceFor(s, side, price, qty);
        case CancelCall(id) =>
          var _ := CancelFor(s, id);
      }
    }

    /** One round: every strategy gets the same snapshot, in registration order. */
    method Round(mm: MarketMaker, m: nat, top: BookTop, calls: seq<seq<Call>>, ghost d: Desk, ghost moves: seq<Move>)
      returns (ghost more: seq<Move>)
      requires Valid() && m < |team| && |calls| == |team| && mm.config.interval > 0
      requires Leads(mm.config, m, |team|, d, moves, Desk(world, mm.View()))
      modifies this, engine.Repr, team, Portfolios, mm
      ensures Valid() && Leads(mm.config, m, |team|, d, more, Desk(world, mm.View()))
      ensures |team| == 1 ==>
                Desk(world, mm.View()) == OnTick(mm.config, Desk(old(world), old(mm.View())), m, top)
    {
      hide Valid, Leads, OnTick;
      more := moves;
      for i := 0 to |team|
        invariant Valid() && Leads(mm.config, m, |team|, d, more, Desk(world, mm.View()))
        invariant i == 0 ==> Desk(world, mm.View()) == Desk(old(world), old(mm.View()))
        invariant |team| == 1 && i == 1 ==>
                    Desk(world, mm.View()) == OnTick(mm.config, Desk(old(world), old(mm.View())), m, top)
      {
        if i == m {
          LeadsOn(mm.config, m, |team|, d, more, Desk(world, mm.View()), Tick(top));
          more := more + [Tick(top)];
          mm.Tick(this, m, top);
        } else {
          more := Obey(i, calls[i], mm.config, m, d, mm.View(), more);
        }
      }
    }

    /** Every other strategy's callback before the first tick or after the last; the market maker's do nothing. */
    method Callbacks(calls: seq<seq<Call>>, c: Config, m: nat, ghost d: Desk, ghost q: Quotes, ghost moves: seq<Move>)
      returns (ghost more: seq<Move>)
      requires Valid() && m < |team| && |calls| == |team| && Leads(c, m, |team|, d, moves, Desk(world, q))
      modifies this, engine.Repr, team, Portfolios
      ensures Valid() && Leads(c, m, |team|, d, more, Desk(world, q))
      ensures |team| == 1 ==> world == old(world)
    {
      hide Valid, Leads;
      more := moves;
      for i := 0 to |team|
        invariant Valid() && Leads(c, m, |team|, d, more, Desk(world, q))
        invariant |team| == 1 ==> world == old(world)
      {
        if i != m {
          more := Obey(i, calls[i], c, m, d, q, more);
        }
      }
    }

    /**
      The replay loop at full speed: each tick's event, a snapshot, then every strategy's turn. The
      market maker is strategy `m`; `script[t][i]` holds the calls the other strategy `i` makes on tick
      `t`, `starts[i]` and `ends[i]` those it makes before the first tick and after the last.
     */
    method Run(events: seq<Step>, mm: MarketMaker, m: nat, script: seq<seq<seq<Call>>>,
               starts: seq<seq<Call>>, ends: seq<seq<Call>>)
      returns (ghost moves: seq<Move>)
      requires Valid() && m < |team| && mm.config.interval > 0 && |starts| == |ends| == |team|
      requires |script| == |events| && forall t :: 0 <= t < |events| ==> FromFile(events[t]) && |script[t]| == |team|
      modifies this, engine.Repr, team, Portfolios, mm
      ensures Valid()
      ensures Leads(mm.config, m, |team|, Desk(old(world), old(mm.View())), moves, Desk(world, mm.View()))
      ensures old(world) == Start(old(world).capacity, |team|) && old(mm.View()) == Quotes(0, 0, 0, 0) ==>
                InBand(mm.config, Desk(world, mm.View()), m)
      ensures |team| == 1 ==>
                Desk(world, mm.View()) == Played(mm.config, Desk(old(world), old(mm.View())), m, events)
    {
      hide Valid, Leads, Next, InBand, OnTick, TopOf, Opening;
      ghost var d := Desk(world, mm.View());
      LeadsNowhere(mm.config, m, |team|, d);
      moves := Callbacks(starts, mm.config, m, d, mm.View(), []);
      for t := 0 to |events|
        invariant Valid() && Leads(mm.config, m, |team|, d, moves, Desk(world, mm.View()))
        invariant |team| == 1 ==> Desk(world, mm.View()) == Played(mm.config, d, m, events[..t])
      {
        assert events[..t + 1][..t] == events[..t];
        LeadsOn(mm.config, m, |team|, d, moves, Desk(world, mm.View()), Elsewhere(events[t]));
        moves := moves + [Elsewhere(events[t])];
        Handle(events[t]);
        var top := SnapshotTop();
        moves := Round(mm, m, top, script[t], d, moves);
      }
      assert events[..|events|] == events;
      moves := Callbacks(ends, mm.config, m, d, mm.View(), moves);
      if d == Opening(d.world.capacity, |team|) {
        LeadsInBand(mm.config, d.world.capacity, |team|, m, moves, Desk(world, mm.View()));
      }
      OpeningIs(d, |team|);
    }
  }

  lemma OpeningIs(d: Desk, strategies: nat)
    ensures d.world == Start(d.world.capacity, strategies) && d.quotes == Quotes(0, 0, 0, 0)
            <==> d == Opening(d.world.capacity, strategies)
  {
  }

  lemma LeadsInBand(c: Config, capacity: nat, strategies: nat, m: nat, moves: seq<Move>, e: Desk)
    requires m < strategies && Leads(c, m, strategies, Opening(capacity, strategies), moves, e)
    ensures InBand(c, e, m)
  {
    hide InBand;
    InventoryIsBounded(c, capacity, strategies, m, moves);
  }

  lemma CancelMisses(b: Book, id: nat)
    ensures !Rests(b, id) ==> Cancel(b, id) == b
  {
  }

  class MarketMaker {
    const config: Config
    var bidId: nat
    var askId: nat
    var lastMid: int
    var ticks: nat

    ghost function View(): Quotes
      reads this
    {
      Quotes(bidId, askId, lastMid, ticks)
    }

    constructor (config: Config)
      ensures View() == Quotes(0, 0, 0, 0) && this.config == config
    {
      this.config := config;
      bidId, askId, lastMid, ticks := 0, 0, 0, 0;
    }

    method CancelQuotes(r: Replay, m: nat)
      requires r.Valid() && m < |r.team|
      modifies this, r, r.engine.Repr, r.team
      ensures r.Valid() && Desk(r.world, View()) == PullQuotes(Desk(old(r.world), old(View())), m)
    {
      hide Replay.Valid, OwnCancel;
      if bidId != 0 {
        var _ := r.CancelFor(m, bidId);
        bidId := 0;
      }
      if askId != 0 {
        var _ := r.CancelFor(m, askId);
        askId := 0;
      }
    }

    /** The position is read once; both quotes are decided by it. */
    method MakeQuotes(r: Replay, m: nat, mid: int)
      requires r.Valid() && m < |r.team|
      modifies this, r, r.engine.Repr, r.team, r.Portfolios
      ensures r.Valid() && Desk(r.world, View()) == PlaceQuotes(config, Desk(old(r.world), old(View())), m, mid)
    {
      hide OwnPlace, Replay.Valid;
      var pos := r.ReadPosition(m);
      var quoteBid, quoteAsk := pos <= config.limit, pos >= -config.limit;
      if quoteBid {
        bidId := r.PlaceFor(m, Buy, mid - config.spread, config.quoteQty);
      }
      if quoteAsk {
        askId := r.PlaceFor(m, Sell, mid + config.spread, config.quoteQty);
      }
      lastMid := mid;
    }

    method Tick(r: Replay, m: nat, top: BookTop)
      requires r.Valid() && m < |r.team| && config.interval > 0
      modifies this, r, r.engine.Repr, r.team, r.Portfolios
      ensures r.Valid() && Desk(r.world, View()) == OnTick(config, Desk(old(r.world), old(View())), m, top)
    {
      hide Replay.Valid, PullQuotes, PlaceQuotes;
      if top.bidPx == 0 || top.askPx == 0 {
        return;
      }
      ticks := ticks + 1;
      var moved := lastMid == 0 || P.Abs(top.mid - lastMid) >= config.threshold;
      if !moved && ticks % config.interval != 0 {
        return;
      }
      CancelQuotes(r, m);
      MakeQuotes(r, m, top.mid);
    }
  }
}
