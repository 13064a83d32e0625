/** What every backtest step keeps: fills are attributed to whoever placed the order, and only once. */
module BacktestLaws {
  import opened Orders
  import opened PriorityBook
  import opened BookInvariant
  import opened BookRuns
  import opened Backtest
  import P = Portfolios

  // ----- sums over credits -----

  lemma {:induction false} CreditedAppend(a: seq<Credit>, b: seq<Credit>, id: nat)
    ensures CreditedQty(a + b, id) == CreditedQty(a, id) + CreditedQty(b, id)
  {
    if b == [] {
      assert a + b == a;
    } else {
      var n := |b| - 1;
      CreditedAppend(a, b[..n], id);
      assert (a + b)[..|a| + n] == a + b[..n];
    }
  }

  lemma {:induction false} LostAppend(a: seq<Loss>, b: seq<Loss>, id: nat)
    ensures LostQty(a + b, id) == LostQty(a, id) + LostQty(b, id)
  {
    if b == [] {
      assert a + b == a;
    } else {
      var n := |b| - 1;
      LostAppend(a, b[..n], id);
      assert (a + b)[..|a| + n] == a + b[..n];
    }
  }

  lemma {:induction false} FillsAppend(a: seq<Credit>, b: seq<Credit>, s: nat)
    ensures FillsOf(a + b, s) == FillsOf(a, s) + FillsOf(b, s)
  {
    if b == [] {
      assert a + b == a;
    } else {
      var n := |b| - 1;
      FillsAppend(a, b[..n], s);
      assert (a + b)[..|a| + n] == a + b[..n];
    }
  }

  lemma CreditedOne(c: Credit, id: nat)
    ensures CreditedQty([c], id) == if c.order == id then c.fill.qty else 0
  {
    assert [c][..0] == [];
  }

  lemma LostOne(l: Loss, id: nat)
    ensures LostQty([l], id) == if l.order == id then l.qty else 0
  {
    assert [l][..0] == [];
  }

  // ----- the trades of one placement -----

  predicate DistinctMakers(ts: seq<Trade>) {
    forall i, j :: 0 <= i < j < |ts| ==> ts[i].makerId != ts[j].makerId
  }

  lemma MadeStep(ts: seq<Trade>, k: nat, id: nat)
    requires k < |ts|
    ensures MadeBy(ts[k..], id) == (if ts[k].makerId == id then ts[k].qty else 0) + MadeBy(ts[k + 1..], id)
  {
    assert ts[k..][1..] == ts[k + 1..];
  }

  lemma TotalStep(ts: seq<Trade>, k: nat)
    requires k < |ts|
    ensures Total(ts[k..]) == ts[k].qty + Total(ts[k + 1..])
  {
    assert ts[k..][1..] == ts[k + 1..];
  }

  lemma MadeOnce(ts: seq<Trade>, k: nat)
    requires k < |ts| && DistinctMakers(ts)
    ensures MadeBy(ts[k + 1..], ts[k].makerId) == 0
  {
    var rest := ts[k + 1..];
    forall i | 0 <= i < |rest|
      ensures rest[i].makerId != ts[k].makerId
    {
      assert rest[i] == ts[k + 1 + i];
    }
    NotMade(rest, ts[k].makerId);
  }

  lemma {:induction false} MadeAt(ts: seq<Trade>, k: nat)
    requires k < |ts| && DistinctMakers(ts)
    ensures MadeBy(ts, ts[k].makerId) == ts[k].qty
  {
    if k == 0 {
      MadeOnce(ts, 0);
    } else {
      MadeAt(ts[1..], k - 1);
    }
  }

  /** Exogenous flow credits a routed maker with all it traded, an unrouted one with nothing. */
  lemma {:induction false} ExoCredited(routing: map<nat, nat>, side: Side, ts: seq<Trade>, op: nat, k: nat, id: nat)
    requires k <= |ts| && DistinctMakers(ts)
    ensures CreditedQty(ExoCredits(routing, side, ts, op, k), id) == if id in routing then MadeBy(ts[k..], id) else 0
    decreases |ts| - k
  {
    if k < |ts| {
      MadeStep(ts, k, id);
      var maker := ts[k].makerId;
      if maker in routing {
        var c := MakerCredit(routing[maker], side, ts[k], op, k);
        ExoCredited(routing - {maker}, side, ts, op, k + 1, id);
        CreditedAppend([c], ExoCredits(routing - {maker}, side, ts, op, k + 1), id);
        CreditedOne(c, id);
        MadeOnce(ts, k);
      } else {
        ExoCredited(routing, side, ts, op, k + 1, id);
      }
    }
  }

  /** A strategy's placement credits the taker with all trades and a routed maker with its own. */
  lemma {:induction false} OwnCredited(routing: map<nat, nat>, s: nat, side: Side, ts: seq<Trade>, op: nat, k: nat,
                                       id: nat, taker: nat)
    requires k <= |ts| && forall i :: 0 <= i < |ts| ==> ts[i].takerId == taker
    ensures CreditedQty(OwnCredits(routing, s, side, ts, op, k), id)
            == (if id == taker then Total(ts[k..]) else 0) + (if id in routing then MadeBy(ts[k..], id) else 0)
    decreases |ts| - k
  {
    if k < |ts| {
      MadeStep(ts, k, id);
      TotalStep(ts, k);
      OwnCredited(routing, s, side, ts, op, k + 1, id, taker);
      var a := TakerCredit(s, side, ts[k], op, k);
      var rest := OwnCredits(routing, s, side, ts, op, k + 1);
      CreditedOne(a, id);
      if ts[k].makerId in routing {
        var m := MakerCredit(routing[ts[k].makerId], side, ts[k], op, k);
        CreditedOne(m, id);
        CreditedAppend([a], [m], id);
        CreditedAppend([a] + [m], rest, id);
      } else {
        CreditedAppend([a], rest, id);
        assert [a] + [] + rest == [a] + rest;
      }
    }
  }

  lemma {:induction false} LossesCount(routing: map<nat, nat>, orders: map<nat, Info>, ts: seq<Trade>, k: nat, id: nat)
    requires k <= |ts|
    ensures LostQty(Losses(routing, orders, ts, k), id)
            == if OwnedByStrategy(orders, id) && id !in routing then MadeBy(ts[k..], id) else 0
    decreases |ts| - k
  {
    if k < |ts| {
      MadeStep(ts, k, id);
      LossesCount(routing, orders, ts, k + 1, id);
      var rest := Losses(routing, orders, ts, k + 1);
      if OwnedByStrategy(orders, ts[k].makerId) && ts[k].makerId !in routing {
        var l := Loss(ts[k].makerId, ts[k].qty);
        LostOne(l, id);
        LostAppend([l], rest, id);
      } else {
        assert [] + rest == rest;
      }
    }
  }

  /** Erasing the hit makers' routes leaves the others. */
  lemma {:induction false} ExoRoutingKeeps(routing: map<nat, nat>, ts: seq<Trade>, k: nat)
    requires k <= |ts|
    ensures forall id :: id in ExoRouting(routing, ts, k) ==>
              id in routing && ExoRouting(routing, ts, k)[id] == routing[id]
    ensures forall id :: id in routing && id !in ExoRouting(routing, ts, k) ==>
              exists i :: k <= i < |ts| && ts[i].makerId == id
    ensures forall i :: k <= i < |ts| ==> ts[i].makerId !in ExoRouting(routing, ts, k)
    decreases |ts| - k
  {
    if k < |ts| {
      ExoRoutingKeeps(routing - {ts[k].makerId}, ts, k + 1);
    }
  }

  // ----- facts about a placement -----

  /** The makers of a placement rest on the other side; the taker is new. */
  ghost predicate FairTrades(w: World, side: Side, ts: seq<Trade>) {
    && DistinctMakers(ts)
    && forall i :: 0 <= i < |ts| ==>
         && ts[i].takerId == w.book.nextId && ts[i].qty > 0
         && ts[i].makerId in w.orders && w.orders[ts[i].makerId].side == side.Opposite()
         && HasId(SideOf(w.book, side.Opposite()), ts[i].makerId)
  }

  lemma PlacementIsFair(w: World, side: Side, price: int, qty: int)
    requires PriorityBook.Inv(w.book) && OrdersOk(w)
    ensures FairTrades(w, side, TradesOf(w, side, price, qty))
  {
    hide Fill, Insert, CrossingQty, Total, Prioritised, Apart, NobodyOvertaken;
    var ts := TradesOf(w, side, price, qty);
    var opp := side.Opposite();
    var q := SideOf(w.book, opp);
    PriceTimePriority(w.book, side, price, qty);
    InvBySide(w.book, opp);
    forall i | 0 <= i < |ts|
      ensures ts[i].makerId in w.orders && w.orders[ts[i].makerId].side == opp
      ensures HasId(q, ts[i].makerId)
    {
      assert q[i].id == ts[i].makerId;
      assert HasId(SideOf(w.book, opp), ts[i].makerId);
    }
    GreedyMakersDistinct(q, side, w.book.nextId, price, ts);
  }

  lemma GreedyMakersDistinct(q: seq<Order>, taker: Side, id: nat, limit: int, ts: seq<Trade>)
    requires DistinctIds(q) && GreedyPrefix(q, taker, id, limit, ts)
    ensures DistinctMakers(ts)
  {
    forall i, j | 0 <= i < j < |ts|
      ensures ts[i].makerId != ts[j].makerId
    {
      assert q[i].id != q[j].id;
    }
  }

  // ----- the record of operations -----

  lemma RecordedStep(w: World, op: Op)
    ensures var r := Run(Empty(w.capacity), w.ops);
            var r' := Run(Empty(w.capacity), w.ops + [op]);
            && r'.book == After(r.book, op)
            && |r.log| == |w.ops|
            && r'.log == r.log + [Happen(r.book, op)]
  {
    assert (w.ops + [op])[..|w.ops|] == w.ops;
  }

  lemma LedgerStep(log: seq<Event>, e: Event, id: nat)
    ensures Ledger(log + [e], id) == Posted(Ledger(log, id), e, id)
  {
    assert (log + [e])[..|log|] == log;
  }

  /** A placement adds to an order's traded quantity what its trades say. */
  lemma TradedStep(w: World, v: World, side: Side, price: int, qty: int, id: nat)
    requires Recorded(w) && v.capacity == w.capacity && v.ops == w.ops + [PlaceOp(side, price, qty)]
    ensures var ts := TradesOf(w, side, price, qty);
            TradedQty(v, id) == TradedQty(w, id) + TakenBy(ts, id) + MadeBy(ts, id)
  {
    RecordedStep(w, PlaceOp(side, price, qty));
    LedgerStep(Run(Empty(w.capacity), w.ops).log, Happen(w.book, PlaceOp(side, price, qty)), id);
  }

  lemma TradedUnchanged(w: World, v: World, x: nat, id: nat)
    requires Recorded(w) && v.capacity == w.capacity && v.ops == w.ops + [CancelOp(x)]
    ensures TradedQty(v, id) == TradedQty(w, id)
  {
    RecordedStep(w, CancelOp(x));
    LedgerStep(Run(Empty(w.capacity), w.ops).log, Happen(w.book, CancelOp(x)), id);
  }

  /** An id that was never handed out has placed and traded nothing. */
  lemma {:induction false} UnusedHasNotTraded(capacity: nat, ops: seq<Op>, id: nat)
    requires id >= Run(Empty(capacity), ops).book.nextId
    ensures var a := Ledger(Run(Empty(capacity), ops).log, id);
            a.placed == 0 && a.taken == 0 && a.made == 0
  {
    if ops != [] {
      var n := |ops| - 1;
      var r := Run(Empty(capacity), ops[..n]);
      UnusedHasNotTraded(capacity, ops[..n], id);
      LedgerStep(r.log, Happen(r.book, ops[n]), id);
      RunKeepsInv(Empty(capacity), ops[..n]);
      if ops[n].PlaceOp? {
        PlacementIgnores(r.book, ops[n].side, ops[n].price, ops[n].qty, id);
      }
    }
  }

  lemma PlacementIgnores(b: Book, side: Side, price: int, qty: int, id: nat)
    requires PriorityBook.Inv(b) && id >= b.nextId
    ensures MadeBy(Place(b, side, price, qty).trades, id) == 0
    ensures id > b.nextId ==> TakenBy(Place(b, side, price, qty).trades, id) == 0
  {
    PriceTimePriority(b, side, price, qty);
    PlaceConserves(b, side, price, qty, id);
    InvBySide(b, side.Opposite());
    NotMade(Place(b, side, price, qty).trades, id);
  }

  // ----- who rests where -----

  lemma FilledFrom(b: Book, side: Side, price: int, qty: int, id: nat)
    requires PriorityBook.Inv(b)
    ensures var q := SideOf(b, side.Opposite());
            HasId(Fill(q, side, b.nextId, price, qty).rest, id) ==> HasId(q, id)
  {
    var q := SideOf(b, side.Opposite());
    InvBySide(b, side.Opposite());
    WellTaggedIsPositive(side.Opposite(), q, b.nextId, b.nextTs);
    FillRest(q, side, b.nextId, price, qty);
    TailKeeps(side.Opposite(), q, Fill(q, side, b.nextId, price, qty).rest, b.nextId, b.nextTs);
  }

  lemma InsertedFrom(side: Side, q: seq<Order>, o: Order, id: nat)
    ensures HasId(Insert(side, q, o), id) <==> HasId(q, id) || id == o.id
  {
    InsertAt(side, q, o);
    var k := Position(side, q, o.price);
    var r := Spliced(q, k, o);
    assert r[k] == o;
    if i :| 0 <= i < |q| && q[i].id == id {
      assert r[if i < k then i else i + 1] == q[i];
    }
  }

  /** Whatever rests after a placement rested on the same side before, or is the new order on its side. */
  lemma PlacedFrom(b: Book, side: Side, price: int, qty: int, x: Side, id: nat)
    requires PriorityBook.Inv(b) && HasId(SideOf(Place(b, side, price, qty).book, x), id)
    ensures HasId(SideOf(b, x), id) || (id == b.nextId && x == side)
  {
    var f := Fill(SideOf(b, side.Opposite()), side, b.nextId, price, qty);
    FilledFrom(b, side, price, qty, id);
    InsertedFrom(side, SideOf(b, side), Order(b.nextId, side, price, f.left, b.nextTs), id);
    PlacedSides(b, side, price, qty);
    assert x == side || x == side.Opposite();
  }

  lemma PlacedSides(b: Book, side: Side, price: int, qty: int)
    ensures var f := Fill(SideOf(b, side.Opposite()), side, b.nextId, price, qty);
            var o := Order(b.nextId, side, price, f.left, b.nextTs);
            var r := Place(b, side, price, qty).book;
            && SideOf(r, side.Opposite()) == f.rest
            && (SideOf(r, side) == SideOf(b, side) || SideOf(r, side) == Insert(side, SideOf(b, side), o))
  {
  }

  /** Cancelling only takes orders away. */
  lemma CancelledFrom(b: Book, x: nat, side: Side, id: nat)
    requires PriorityBook.Inv(b) && HasId(SideOf(Cancel(b, x), side), id)
    ensures HasId(SideOf(b, side), id)
  {
    InvBySide(b, side);
    RemoveKeeps(side, SideOf(b, side), x, b.nextId, b.nextTs);
    var r := SideOf(Cancel(b, x), side);
    var k :| 0 <= k < |r| && r[k].id == id;
    assert r == SideOf(b, side) || r == Remove(SideOf(b, side), x);
  }

  // ----- each credit is a real trade -----

  /** `c` reports trade `c.index` of `ts` to the strategy routed for its maker. */
  predicate MakerOk(routing: map<nat, nat>, side: Side, ts: seq<Trade>, op: nat, c: Credit) {
    && c.index < |ts| && ts[c.index].makerId in routing
    && c == MakerCredit(routing[ts[c.index].makerId], side, ts[c.index], op, c.index)
  }

  predicate TakerOk(s: nat, side: Side, ts: seq<Trade>, op: nat, c: Credit) {
    c.index < |ts| && c == TakerCredit(s, side, ts[c.index], op, c.index)
  }

  lemma {:induction false} ExoCreditsMade(routing: map<nat, nat>, side: Side, ts: seq<Trade>, op: nat, k: nat)
    requires k <= |ts|
    ensures forall c :: c in ExoCredits(routing, side, ts, op, k) ==> MakerOk(routing, side, ts, op, c)
    decreases |ts| - k
  {
    if k < |ts| {
      if ts[k].makerId in routing {
        ExoCreditsMade(routing - {ts[k].makerId}, side, ts, op, k + 1);
      } else {
        ExoCreditsMade(routing, side, ts, op, k + 1);
      }
    }
  }

  lemma {:induction false} OwnCreditsMade(routing: map<nat, nat>, s: nat, side: Side, ts: seq<Trade>, op: nat, k: nat)
    requires k <= |ts|
    ensures forall c :: c in OwnCredits(routing, s, side, ts, op, k) ==>
              MakerOk(routing, side, ts, op, c) || TakerOk(s, side, ts, op, c)
    decreases |ts| - k
  {
    if k < |ts| {
      OwnCreditsMade(routing, s, side, ts, op, k + 1);
      var rest := OwnCredits(routing, s, side, ts, op, k + 1);
      var m := if ts[k].makerId in routing then [MakerCredit(routing[ts[k].makerId], side, ts[k], op, k)] else [];
      forall c | c in [TakerCredit(s, side, ts[k], op, k)] + m + rest
        ensures MakerOk(routing, side, ts, op, c) || TakerOk(s, side, ts, op, c)
      {
        assert c == TakerCredit(s, side, ts[k], op, k) || c in m || c in rest;
      }
    }
  }

  lemma {:induction false} LossesMade(routing: map<nat, nat>, orders: map<nat, Info>, ts: seq<Trade>, k: nat)
    requires k <= |ts|
    ensures forall l :: l in Losses(routing, orders, ts, k) ==>
              OwnedByStrategy(orders, l.order) && l.order !in routing
    decreases |ts| - k
  {
    if k < |ts| {
      LossesMade(routing, orders, ts, k + 1);
    }
  }

  /** Delivering credits is folding each strategy's fills into its portfolio. */
  lemma {:induction false} DeliverFolds(accounts: seq<Standing>, cs: seq<Credit>, s: nat, fs: seq<P.Fill>)
    requires s < |accounts| && accounts[s].portfolio == P.OnFills(fs)
    ensures Deliver(accounts, cs)[s].portfolio == P.OnFills(fs + FillsOf(cs, s))
  {
    if cs == [] {
      assert fs + [] == fs;
    } else {
      var n := |cs| - 1;
      DeliverFolds(accounts, cs[..n], s, fs);
      var before := fs + FillsOf(cs[..n], s);
      if cs[n].strategy == s {
        assert fs + FillsOf(cs, s) == before + [cs[n].fill];
        assert (before + [cs[n].fill])[..|before|] == before;
      } else {
        assert fs + FillsOf(cs, s) == before;
      }
    }
  }

  /** Old credits stay justified when the record grows. */
  lemma CreditStays(w: World, v: World, op: Op, c: Credit)
    requires v.capacity == w.capacity && v.ops == w.ops + [op]
    requires CreditOk(w, c) && c.order in v.orders && v.orders[c.order] == w.orders[c.order]
    ensures CreditOk(v, c)
  {
    RecordedStep(w, op);
  }

  lemma NewCredit(w: World, v: World, side: Side, price: int, qty: int, c: Credit)
    requires Recorded(w) && v.capacity == w.capacity && v.ops == w.ops + [PlaceOp(side, price, qty)]
    requires c.op == |w.ops| && c.index < |TradesOf(w, side, price, qty)|
    requires var t := TradesOf(w, side, price, qty)[c.index];
             t.price == c.fill.price && t.qty == c.fill.qty && c.order == (if c.taker then t.takerId else t.makerId)
    requires c.order in v.orders && v.orders[c.order].owner == Strategy(c.strategy)
    requires v.orders[c.order].side == c.fill.side
    ensures CreditOk(v, c)
  {
    RecordedStep(w, PlaceOp(side, price, qty));
  }

  // ----- every step keeps the invariant -----

  /** `v` has the book, record and orders that `Submit` leaves. */
  predicate Submitted(w: World, v: World, owner: Owner, side: Side, price: int, qty: int) {
    && v.capacity == w.capacity && |v.accounts| == |w.accounts|
    && v.book == Place(w.book, side, price, qty).book
    && v.ops == w.ops + [PlaceOp(side, price, qty)]
    && v.orders == w.orders[w.book.nextId := Info(owner, side, qty)]
  }

  lemma SubmitSides(w: World, v: World, owner: Owner, side: Side, price: int, qty: int, x: Side, id: nat)
    requires PriorityBook.Inv(w.book) && OrdersOk(w) && Submitted(w, v, owner, side, price, qty)
    requires HasId(SideOf(v.book, x), id)
    ensures id in v.orders && v.orders[id].side == x
  {
    hide PriorityBook.Inv, Fill, Insert;
    PlacedFrom(w.book, side, price, qty, x, id);
    assert HasId(SideOf(w.book, x), id) ==> id in w.orders && w.orders[id].side == x && id < w.book.nextId;
  }

  lemma SubmitKeepsOrders(w: World, v: World, owner: Owner, side: Side, price: int, qty: int)
    requires PriorityBook.Inv(w.book) && OrdersOk(w) && Submitted(w, v, owner, side, price, qty)
    requires owner.Strategy? ==> owner.index < |w.accounts|
    ensures OrdersOk(v)
  {
    assert w.book.nextId >= 1;
    hide HasId, PriorityBook.Inv, Fill, Insert;
    assert v.book.nextId == w.book.nextId + 1;
    forall x, id | HasId(SideOf(v.book, x), id)
      ensures id in v.orders && v.orders[id].side == x
    {
      SubmitSides(w, v, owner, side, price, qty, x, id);
    }
  }

  /** What `Submit` does to the record and the book, for any owner. */
  lemma SubmitKeeps(w: World, v: World, owner: Owner, side: Side, price: int, qty: int)
    requires Recorded(w) && PriorityBook.Inv(w.book) && OrdersOk(w)
    requires owner.Strategy? ==> owner.index < |w.accounts|
    requires Submitted(w, v, owner, side, price, qty)
    ensures Recorded(v) && PriorityBook.Inv(v.book) && OrdersOk(v)
  {
    hide Run, OrdersOk, PriorityBook.Inv, Fill, Insert;
    SubmitKeepsOrders(w, v, owner, side, price, qty);
    PlaceKeepsInv(w.book, side, price, qty);
    RecordedStep(w, PlaceOp(side, price, qty));
  }

  lemma AccountsFold(w: World, v: World, bumped: seq<Standing>, cs: seq<Credit>)
    requires AccountsOk(w) && |bumped| == |w.accounts|
    requires forall s :: 0 <= s < |bumped| ==> bumped[s].portfolio == w.accounts[s].portfolio
    requires v.accounts == Deliver(bumped, cs) && v.credits == w.credits + cs
    ensures AccountsOk(v)
  {
    forall s | 0 <= s < |v.accounts|
      ensures v.accounts[s].portfolio == P.OnFills(FillsOf(v.credits, s))
    {
      DeliverFolds(bumped, cs, s, FillsOf(w.credits, s));
      FillsAppend(w.credits, cs, s);
    }
  }
}
