/**
  The reference book. Each side is one sequence of orders in price-time priority:
  no lists, no index, no allocator. The linked structure of `OrderBook` is proved to refine it.
 */
module PriorityBook {
  import opened Orders

  /** `free` counts the allocator's unused slots: a remainder can rest only if there is one. */
  datatype Book = Book(bids: seq<Order>, asks: seq<Order>, nextId: nat, nextTs: nat, free: nat)

  datatype Filled = Filled(rest: seq<Order>, left: int, trades: seq<Trade>)

  /** `dropped` is the quantity discarded because no slot was free. */
  datatype Placement = Placement(book: Book, id: nat, trades: seq<Trade>, dropped: int)

  function Empty(capacity: nat): Book {
    Book([], [], 1, 1, capacity)
  }

  function SideOf(b: Book, side: Side): seq<Order> {
    Pick(side, b.bids, b.asks)
  }

  function WithSide(b: Book, side: Side, q: seq<Order>): Book {
    if side.Buy? then b.(bids := q) else b.(asks := q)
  }

  function All(b: Book): seq<Order> {
    b.bids + b.asks
  }

  /** Consumes the queue `q` from its front while it crosses and quantity is left. */
  function Fill(q: seq<Order>, taker: Side, id: nat, limit: int, qty: int): (r: Filled)
    ensures |r.rest| <= |q|
    decreases |q|
  {
    if qty <= 0 || q == [] || !Crosses(taker, limit, q[0].price) then
      Filled(q, qty, [])
    else if q[0].qty <= qty then
      var r := Fill(q[1..], taker, id, limit, qty - q[0].qty);
      r.(trades := [Trade(id, q[0].id, q[0].price, q[0].qty)] + r.trades)
    else
      Filled([q[0].(qty := q[0].qty - qty)] + q[1..], 0, [Trade(id, q[0].id, q[0].price, qty)])
  }

  /** Inserts behind every order whose price is at least as good. */
  function Insert(side: Side, q: seq<Order>, o: Order): seq<Order> {
    if q == [] || Better(side, o.price, q[0].price) then [o] + q
    else [q[0]] + Insert(side, q[1..], o)
  }

  function Remove(q: seq<Order>, id: nat): seq<Order> {
    if q == [] then []
    else (if q[0].id == id then [] else [q[0]]) + Remove(q[1..], id)
  }

  function Place(b: Book, side: Side, price: int, qty: int): Placement {
    var f := Fill(SideOf(b, side.Opposite()), side, b.nextId, price, qty);
    var matched := WithSide(b, side.Opposite(), f.rest)
                   .(nextId := b.nextId + 1,
                     free := b.free + (|SideOf(b, side.Opposite())| - |f.rest|));
    if f.left <= 0 then
      Placement(matched, b.nextId, f.trades, 0)
    else if matched.free == 0 then
      Placement(matched, b.nextId, f.trades, f.left)
    else
      var o := Order(b.nextId, side, price, f.left, b.nextTs);
      Placement(WithSide(matched, side, Insert(side, SideOf(b, side), o))
                .(nextTs := b.nextTs + 1, free := matched.free - 1),
                b.nextId, f.trades, 0)
  }

  predicate Rests(b: Book, id: nat) {
    exists i :: 0 <= i < |All(b)| && All(b)[i].id == id
  }

  function Cancel(b: Book, id: nat): Book {
    if Rests(b, id) then
      b.(bids := Remove(b.bids, id), asks := Remove(b.asks, id), free := b.free + 1)
    else b
  }

  /** 0 stands for an empty bid side, as in the source. */
  function BestBid(b: Book): int {
    if b.bids == [] then 0 else b.bids[0].price
  }

  const INT64_MAX: int := 0x7fff_ffff_ffff_ffff

  function BestAsk(b: Book): int {
    if b.asks == [] then INT64_MAX else b.asks[0].price
  }

  /** Total quantity of the orders of `q` at `price`. */
  function QtyAt(q: seq<Order>, price: int): int {
    if q == [] then 0
    else (if q[0].price == price then q[0].qty else 0) + QtyAt(q[1..], price)
  }

  // ----- the invariant -----

  /** `a` has price-time priority over `b`. */
  predicate Ahead(side: Side, a: Order, b: Order) {
    Better(side, a.price, b.price) || (a.price == b.price && a.ts < b.ts)
  }

  predicate Prioritised(side: Side, q: seq<Order>) {
    forall i, j :: 0 <= i < j < |q| ==> Ahead(side, q[i], q[j])
  }

  predicate WellTagged(side: Side, q: seq<Order>, nextId: nat, nextTs: nat) {
    forall i :: 0 <= i < |q| ==>
      q[i].side == side && q[i].qty > 0 && q[i].id < nextId && q[i].ts < nextTs
  }

  predicate DistinctIds(q: seq<Order>) {
    forall i, j :: 0 <= i < j < |q| ==> q[i].id != q[j].id
  }

  /** One side on its own: in strict priority order, positive quantities, distinct ids. */
  predicate SideInv(side: Side, q: seq<Order>, nextId: nat, nextTs: nat) {
    Prioritised(side, q) && WellTagged(side, q, nextId, nextTs) && DistinctIds(q)
  }

  /** The orders `p` of `side` share no id with the opposite orders `q` and do not reach them. */
  predicate Apart(side: Side, p: seq<Order>, q: seq<Order>) {
    forall i, j :: 0 <= i < |p| && 0 <= j < |q| ==>
      p[i].id != q[j].id && !Crosses(side, p[i].price, q[j].price)
  }

  /** In particular every bid is priced strictly below every ask. */
  predicate Inv(b: Book) {
    && SideInv(Buy, b.bids, b.nextId, b.nextTs)
    && SideInv(Sell, b.asks, b.nextId, b.nextTs)
    && Apart(Buy, b.bids, b.asks)
    && b.nextId >= 1
  }

  // ----- what matching does -----

  /** Quantity offered, anywhere in `q`, at a price the taker accepts. */
  function CrossingQty(q: seq<Order>, taker: Side, limit: int): int {
    if q == [] then 0
    else (if Crosses(taker, limit, q[0].price) then q[0].qty else 0)
         + CrossingQty(q[1..], taker, limit)
  }

  function Total(ts: seq<Trade>): int {
    if ts == [] then 0 else ts[0].qty + Total(ts[1..])
  }

  /** `ts` takes the makers of `q` one by one from the front, only the last one perhaps in part. */
  predicate GreedyPrefix(q: seq<Order>, taker: Side, id: nat, limit: int, ts: seq<Trade>) {
    && |ts| <= |q|
    && (forall i :: 0 <= i < |ts| ==>
          && ts[i].takerId == id && ts[i].makerId == q[i].id && ts[i].price == q[i].price
          && Crosses(taker, limit, q[i].price)
          && 0 < ts[i].qty <= q[i].qty)
    && (forall i :: 0 <= i < |ts| - 1 ==> ts[i].qty == q[i].qty)
  }

  predicate AllPositive(q: seq<Order>) {
    forall i :: 0 <= i < |q| ==> q[i].qty > 0
  }

  lemma QtyAtFront(q: seq<Order>)
    requires q != [] && AllPositive(q)
    ensures QtyAt(q, q[0].price) > 0
  {
    QtyAtSign(q[1..], q[0].price);
  }

  lemma {:induction false} QtyAtSign(q: seq<Order>, price: int)
    requires AllPositive(q)
    ensures QtyAt(q, price) >= 0
  {
    if q != [] {
      QtyAtSign(q[1..], price);
    }
  }

  lemma {:induction false} NoCrossing(q: seq<Order>, taker: Side, limit: int)
    requires forall i :: 0 <= i < |q| ==> !Crosses(taker, limit, q[i].price)
    ensures CrossingQty(q, taker, limit) == 0
  {
    if q != [] {
      NoCrossing(q[1..], taker, limit);
    }
  }

  lemma {:induction false} CrossingNonNegative(q: seq<Order>, taker: Side, limit: int)
    requires AllPositive(q)
    ensures CrossingQty(q, taker, limit) >= 0
  {
    if q != [] {
      CrossingNonNegative(q[1..], taker, limit);
    }
  }

  lemma GreedyCons(q: seq<Order>, taker: Side, id: nat, limit: int, ts: seq<Trade>)
    requires q != [] && q[0].qty > 0 && Crosses(taker, limit, q[0].price)
    requires GreedyPrefix(q[1..], taker, id, limit, ts)
    ensures GreedyPrefix(q, taker, id, limit, [Trade(id, q[0].id, q[0].price, q[0].qty)] + ts)
  {
    var us := [Trade(id, q[0].id, q[0].price, q[0].qty)] + ts;
    forall i | 0 < i < |us|
      ensures us[i] == ts[i - 1] && q[i] == q[1..][i - 1]
    {
    }
  }

  /** The trades are the greedy prefix of the queue. */
  lemma {:induction false} FillIsGreedy(q: seq<Order>, taker: Side, id: nat, limit: int, qty: int)
    requires AllPositive(q)
    ensures GreedyPrefix(q, taker, id, limit, Fill(q, taker, id, limit, qty).trades)
    decreases |q|
  {
    if qty > 0 && q != [] && Crosses(taker, limit, q[0].price) && q[0].qty <= qty {
      FillIsGreedy(q[1..], taker, id, limit, qty - q[0].qty);
      GreedyCons(q, taker, id, limit, Fill(q[1..], taker, id, limit, qty - q[0].qty).trades);
    }
  }

  /** A prioritised side whose front does not cross does not cross anywhere. */
  lemma FrontDecides(q: seq<Order>, taker: Side, limit: int)
    requires Prioritised(taker.Opposite(), q)
    requires q != [] && !Crosses(taker, limit, q[0].price)
    ensures forall i :: 0 <= i < |q| ==> !Crosses(taker, limit, q[i].price)
  {
    forall i | 0 <= i < |q|
      ensures !Crosses(taker, limit, q[i].price)
    {
      assert i == 0 || Ahead(taker.Opposite(), q[0], q[i]);
    }
  }

  /** As much trades as crosses, up to the quantity asked for. */
  lemma {:induction false} FillTakesAllThatCrosses(q: seq<Order>, taker: Side, id: nat, limit: int, qty: int)
    requires Prioritised(taker.Opposite(), q) && AllPositive(q)
    ensures var r := Fill(q, taker, id, limit, qty);
            && Total(r.trades) == Min(Max(qty, 0), CrossingQty(q, taker, limit))
            && r.left == qty - Total(r.trades)
    decreases |q|
  {
    CrossingNonNegative(q, taker, limit);
    if qty <= 0 || q == [] {
    } else if !Crosses(taker, limit, q[0].price) {
      FrontDecides(q, taker, limit);
      NoCrossing(q, taker, limit);
    } else if q[0].qty <= qty {
      FillTakesAllThatCrosses(q[1..], taker, id, limit, qty - q[0].qty);
      CrossingNonNegative(q[1..], taker, limit);
      var ts := Fill(q, taker, id, limit, qty).trades;
      assert ts[1..] == Fill(q[1..], taker, id, limit, qty - q[0].qty).trades;
    } else {
      CrossingNonNegative(q[1..], taker, limit);
      assert Fill(q, taker, id, limit, qty).trades[1..] == [];
    }
  }

  /** A taker with quantity left has consumed its makers whole and crosses nothing any more. */
  lemma {:induction false} FillExhausts(q: seq<Order>, taker: Side, id: nat, limit: int, qty: int)
    requires Prioritised(taker.Opposite(), q)
    requires Fill(q, taker, id, limit, qty).left > 0
    ensures var r := Fill(q, taker, id, limit, qty);
            && |r.trades| == |q| - |r.rest|
            && forall i :: 0 <= i < |r.rest| ==> !Crosses(taker, limit, r.rest[i].price)
    decreases |q|
  {
    if q != [] {
      if Crosses(taker, limit, q[0].price) {
        FillExhausts(q[1..], taker, id, limit, qty - q[0].qty);
      } else {
        FrontDecides(q, taker, limit);
      }
    }
  }

  /** `r` is the tail of `q`, its head perhaps reduced. */
  predicate TailOf(q: seq<Order>, r: seq<Order>) {
    && |r| <= |q|
    && (r != [] ==> 0 < r[0].qty <= q[|q| - |r|].qty && r[0] == q[|q| - |r|].(qty := r[0].qty)
                    && r[1..] == q[|q| - |r| + 1..])
  }

  lemma {:induction false} FillRest(q: seq<Order>, taker: Side, id: nat, limit: int, qty: int)
    requires AllPositive(q)
    ensures TailOf(q, Fill(q, taker, id, limit, qty).rest)
    decreases |q|
  {
    if qty > 0 && q != [] && Crosses(taker, limit, q[0].price) && q[0].qty <= qty {
      FillRest(q[1..], taker, id, limit, qty - q[0].qty);
      var r := Fill(q[1..], taker, id, limit, qty - q[0].qty).rest;
      assert r != [] ==> q[1..][|q| - 1 - |r| + 1..] == q[|q| - |r| + 1..];
    }
  }
}
