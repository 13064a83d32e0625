/**
  The order book as the engine runs it: price levels are doubly linked lists threaded through pool
  slots, an index gives the slot of every resting id. Every operation refines the reference book.
 */
module LimitBook {
  import opened Orders
  import opened PriorityBook
  import opened BookInvariant
  import opened BookRuns
  import opened ObjectPools
  import opened Levels
  import opened BookShape
  import opened BookEdits
  import opened BookRefinement

  class OrderBook {
    const pool: ObjectPool
    const nodes: array<Node>
    var bids: map<int, Level>
    var asks: map<int, Level>
    var index: map<nat, int>
    var nextId: nat
    var nextTs: nat

    /** The slots of each level, oldest order first. */
    ghost var bidQ: Queues
    ghost var askQ: Queues

    ghost const Repr: set<object> := {this, pool, pool.next, nodes}

    ghost function S(): Shape
      reads this, pool, nodes
    {
      Shape(nodes[..], bids, asks, bidQ, askQ, index, pool.free)
    }

    function Lv(side: Side): map<int, Level>
      reads this
    {
      Pick(side, bids, asks)
    }

    /** The parts of consistency that are not about the shape. */
    ghost predicate Counted()
      reads this, pool, pool.next, nodes
    {
      pool.Valid() && nodes.Length == pool.capacity && pool.inUse == |index|
    }

    ghost predicate Valid()
      reads this, pool, pool.next, nodes
    {
      Counted() && Fine(S(), nextId, nextTs)
    }

    /** The reference book this object stands for. */
    ghost function Abs(): Book
      requires Valid()
      reads this, pool, pool.next, nodes
    {
      AbsOf(S(), nextId, nextTs)
    }

    constructor (capacity: nat)
      ensures Valid() && fresh(Repr)
      ensures Abs() == Empty(capacity)
    {
      pool := new ObjectPool(capacity);
      nodes := new Node[capacity](i => Node(0, Buy, 0, 0, 0, NULL, NULL));
      bids, asks, index := map[], map[], map[];
      nextId, nextTs := 1, 1;
      bidQ, askQ := map[], map[];
      new;
      hide Fine, AbsOf;
      EmptyFine(S());
    }

    // ----- level helpers -----

    method LevelPushBack(lvl: Level, n: int) returns (r: Level)
      requires 0 <= n < nodes.Length && (lvl.tail == NULL || 0 <= lvl.tail < nodes.Length)
      modifies nodes
      ensures nodes[..] == PushedNodes(old(nodes[..]), lvl, n)
      ensures r == PushedLevel(lvl, n)
    {
      nodes[n] := nodes[n].(prev := lvl.tail, next := NULL);
      r := lvl;
      if lvl.tail != NULL {
        nodes[lvl.tail] := nodes[lvl.tail].(next := n);
      } else {
        r := r.(head := n);
      }
      r := r.(tail := n);
    }

    method LevelUnlink(lvl: Level, n: int) returns (r: Level)
      requires LinksInSlab(nodes[..], n)
      modifies nodes
      ensures nodes[..] == UnlinkedNodes(old(nodes[..]), n)
      ensures r == UnlinkedLevel(old(nodes[..]), lvl, n)
    {
      var prev, next := nodes[n].prev, nodes[n].next;
      r := lvl;
      if prev != NULL {
        nodes[prev] := nodes[prev].(next := next);
      } else {
        r := r.(head := next);
      }
      if next != NULL {
        nodes[next] := nodes[next].(prev := prev);
      } else {
        r := r.(tail := prev);
      }
      nodes[n] := nodes[n].(prev := NULL, next := NULL);
    }

    method SetLevel(side: Side, p: int, lvl: Level, ghost q: seq<int>)
      modifies this`bids, this`asks, this`bidQ, this`askQ
      ensures S() == Edited(old(S()), side, p, lvl, q, nodes[..], index, pool.free)
      ensures nextId == old(nextId) && nextTs == old(nextTs) && index == old(index)
    {
      if side.Buy? {
        bids, bidQ := bids[p := lvl], bidQ[p := q];
      } else {
        asks, askQ := asks[p := lvl], askQ[p := q];
      }
    }

    method EraseLevel(side: Side, p: int)
      requires Counted()
      modifies this`bids, this`asks, this`bidQ, this`askQ
      ensures Counted() && S() == Erased(old(S()), side, p)
      ensures nextId == old(nextId) && nextTs == old(nextTs)
    {
      if side.Buy? {
        bids, bidQ := bids - {p}, bidQ - {p};
      } else {
        asks, askQ := asks - {p}, askQ - {p};
      }
    }

    /** Unlinks slot `n`, forgets its id and releases it. */
    method TakeOut(side: Side, p: int, n: int, ghost k: nat)
      requires Counted()
      requires CanRemove(S(), side, p, k) && n == S().Qs(side)[p][k]
      requires n !in pool.free && nodes[n].id in index
      modifies this, pool, pool.next, nodes
      ensures Counted()
      ensures S() == Removed(old(S()), side, p, k)
      ensures nextId == old(nextId) && nextTs == old(nextTs)
    {
      ghost var s := S();
      ghost var q := s.Qs(side)[p];
      var id := nodes[n].id;
      LevelFine(s, side, p);
      UnlinkLinks(s.ns, s.Lv(side)[p], q, k);
      var lvl := LevelUnlink(Lv(side)[p], n);
      SetLevel(side, p, lvl, Without(q, k));
      EraseShrinks(index, id);
      index := index - {id};
      pool.Release(n);
    }

    // ----- matching -----

    /** Trades with the order at the head of the best level, which leaves the book if used up. */
    method FillHead(side: Side, takerId: nat, px: int, qty: int) returns (left: int, trade: Trade)
      requires Counted() && CanRemove(S(), side, px, 0)
      requires S().Qs(side)[px][0] !in pool.free && S().ns[S().Qs(side)[px][0]].id in index
      modifies this, pool, pool.next, nodes
      ensures Counted()
      ensures S() == HeadFilled(old(S()), side, px, qty)
      ensures var m := old(S().ns[S().Qs(side)[px][0]]);
              trade == Trade(takerId, m.id, px, Min(qty, m.qty)) && left == qty - trade.qty
      ensures nextId == old(nextId) && nextTs == old(nextTs)
    {
      ghost var s := S();
      LevelFine(s, side, px);
      var maker := Lv(side)[px].head;
      var fill := Min(qty, nodes[maker].qty);
      trade := Trade(takerId, nodes[maker].id, px, fill);
      left := qty - fill;
      nodes[maker] := nodes[maker].(qty := nodes[maker].qty - fill);
      assert S() == Reduced(s, maker, s.ns[maker].qty - fill);
      if nodes[maker].qty == 0 {
        ReducedSide(s, maker, s.ns[maker].qty - fill, side);
        TakeOut(side, px, maker, 0);
      }
    }

    /** `FillHead`, with what the step means for the book. */
    method StepHead(side: Side, takerId: nat, px: int, qty: int) returns (left: int, trade: Trade)
      requires Counted() && Core(S()) && SideFine(S(), side.Opposite()) && AtBest(S(), side, px) && qty > 0
      modifies this, pool, pool.next, nodes
      ensures Counted() && Stepped(old(S()), S(), side.Opposite(), side, px, qty)
      ensures trade == StepTrade(old(S()), takerId, side, px, qty) && left == qty - trade.qty
      ensures nextId == old(nextId) && nextTs == old(nextTs)
    {
      HeadIsLive(S(), side, px);
      HeadFilledSteps(S(), side, px, qty);
      left, trade := FillHead(side, takerId, px, qty);
    }

    /** One round of the inner loop. */
    method MatchOne(ghost t: Task, side: Side, takerId: nat, px: int, qty: int, before: seq<Trade>, ghost qs: Queues)
      returns (left: int, trades: seq<Trade>)
      requires t.taker.Opposite() == side && t.id == takerId
      requires Counted() && Matching(t, S(), qty, before) && OnLevel(S(), side, px, qs)
      requires qty > 0 && AtBest(S(), side, px) && Crosses(t.taker, t.limit, px)
      modifies this, pool, pool.next, nodes
      ensures Counted() && Matching(t, S(), left, trades) && OnLevel(S(), side, px, qs)
      ensures nextId == old(nextId) && nextTs == old(nextTs) && trades != []
      ensures left <= 0 || |S().Qs(side)[px]| < old(|S().Qs(side)[px]|)
      ensures |S().Qs(side)[px]| <= old(|S().Qs(side)[px]|)
    {
      hide Core, Flat, Fill;
      ghost var s := S();
      assert t.taker == side.Opposite();
      var trade;
      left, trade := StepHead(side, takerId, px, qty);
      trades := before + [trade];
      assert Stepped(s, S(), t.taker, side, px, qty);
      assert AtBest(s, side, px);
      assert SideFine(s, t.taker);
      MatchStep(t, s, S(), side, px, qty, before);
      OnLevelAfter(s, S(), side, px, S().Qs(side)[px], qs);
    }

    /** The inner loop: consumes the level `px` while quantity is left. */
    method MatchLevel(ghost t: Task, side: Side, takerId: nat, px: int, qty: int, before: seq<Trade>)
      returns (left: int, trades: seq<Trade>)
      requires t.taker.Opposite() == side && t.id == takerId
      requires Counted() && Matching(t, S(), qty, before)
      requires qty > 0 && AtBest(S(), side, px) && Crosses(t.taker, t.limit, px)
      modifies this, pool, pool.next, nodes
      ensures Counted() && Matching(t, S(), left, trades) && OnLevel(S(), side, px, old(S().Qs(side)))
      ensures nextId == old(nextId) && nextTs == old(nextTs) && trades != []
      ensures left <= 0 || S().Qs(side)[px] == []
    {
      hide Core, Fill, Progress, Untouched;
      left, trades := qty, before;
      ghost var qs := S().Qs(side);
      LevelFine(S(), side, px);
      assert qs[px := qs[px]] == qs;
      while left > 0 && Lv(side)[px].head != NULL
        invariant Counted() && Matching(t, S(), left, trades) && OnLevel(S(), side, px, qs)
        invariant nextId == old(nextId) && nextTs == old(nextTs)
        invariant trades != [] || (left == qty && S().Qs(side)[px] != [])
        decreases |S().Qs(side)[px]|, left
      {
        left, trades := MatchOne(t, side, takerId, px, left, trades, qs);
      }
    }

    /** One round of the outer loop: consumes the best level and prunes it if it is used up. */
    method MatchBest(ghost t: Task, side: Side, takerId: nat, px: int, qty: int, before: seq<Trade>)
      returns (left: int, trades: seq<Trade>)
      requires t.taker.Opposite() == side && t.id == takerId
      requires Counted() && Matching(t, S(), qty, before) && LevelsFull(S(), side)
      requires qty > 0 && AtBest(S(), side, px) && Crosses(t.taker, t.limit, px)
      modifies this, pool, pool.next, nodes
      ensures Counted() && Matching(t, S(), left, trades) && LevelsFull(S(), side)
      ensures nextId == old(nextId) && nextTs == old(nextTs)
      ensures |Lv(side)| <= old(|Lv(side)|) && (left <= 0 || |Lv(side)| < old(|Lv(side)|))
    {
      ghost var qs := S().Qs(side);
      SameCount(S(), side);
      left, trades := MatchLevel(t, side, takerId, px, qty, before);
      FullAgain(S(), side, px, qs);
      LevelCount(S(), side, px, qs);
      if Lv(side)[px].head == NULL {
        EraseStep(t, S(), px, left, trades);
        EraseLevel(side, px);
      }
    }

    /** Matches a taker against the opposite side; the trades and what remains are the reference's. */
    method MatchAgainst(taker: Side, takerId: nat, limit: int, qty: int) returns (left: int, trades: seq<Trade>)
      requires Counted() && Core(S()) && LevelsFull(S(), taker.Opposite())
      requires SideFine(S(), taker) && SideFine(S(), taker.Opposite())
      modifies this, pool, pool.next, nodes
      ensures Counted() && Matched(old(S()), S(), taker, takerId, limit, qty, left, trades)
      ensures nextId == old(nextId) && nextTs == old(nextTs)
    {
      hide Matching, Matched, Flat, SideOk, Core, AtBest;
      var opp := taker.Opposite();
      ghost var t := StartTask(S(), taker, takerId, limit, qty, Flat(S(), opp), Flat(S(), taker));
      MatchStart(S(), taker, takerId, limit, qty);
      left, trades := qty, [];
      while left > 0 && Lv(opp) != map[]
        invariant Counted() && Matching(t, S(), left, trades) && LevelsFull(S(), opp)
        invariant nextId == old(nextId) && nextTs == old(nextTs)
        decreases |Lv(opp)| + if left > 0 then 1 else 0
      {
        BestLevel(t, S(), opp, left, trades);
        var px := Best(opp, Lv(opp).Keys);
        if !Crosses(taker, limit, px) {
          MatchDone(t, S(), opp, left, trades);
          return;
        }
        left, trades := MatchBest(t, opp, takerId, px, left, trades);
      }
      MatchDone(t, S(), opp, left, trades);
    }

    // ----- placing -----

    /** Links the order into the first free slot. */
    method LinkIn(o: Order)
      requires Counted() && FitsIn(S(), o) && o.id !in index
      modifies this, pool, nodes
      ensures Counted() && S() == LinkedIn(old(S()), o)
      ensures nextId == old(nextId) && nextTs == old(nextTs) + 1
    {
      ghost var s := S();
      InsertGrows(index, o.id, pool.free[0]);
      var n := pool.Acquire();
      nodes[n] := FreshNode(o);
      assert nodes[..] == s.ns[n := FreshNode(o)];
      var lvl := LevelPushBack(LevelOr(Lv(o.side), o.price), n);
      nextTs := nextTs + 1;
      SetLevel(o.side, o.price, lvl, QueueOr(s.Qs(o.side), o.price) + [n]);
      index := index[o.id := n];
    }

    /** Rests the order in the first free slot. */
    method Rest(o: Order)
      requires Counted() && CanRest(S(), o) && SideFine(S(), o.side) && SideFine(S(), o.side.Opposite())
      modifies this, pool, nodes
      ensures Counted() && Inserted(old(S()), S(), o) && S() == Rested(old(S()), o)
      ensures nextId == old(nextId) && nextTs == old(nextTs) + 1
    {
      RestHere(S(), o);
      RestedInserts(S(), o);
      LinkIn(o);
    }

    /** The second half of a placement: rests the remainder if there is one and a slot for it. */
    method RestRemainder(ghost s: Shape, id: nat, side: Side, price: int, ghost qty: int,
                         left: int, ghost trades: seq<Trade>)
      requires Counted() && Fine(s, id, nextTs) && nextId == id + 1
      requires SideFine(s, side) && SideFine(s, side.Opposite())
      requires Matched(s, S(), side, id, price, qty, left, trades)
      modifies this, pool, nodes
      ensures Counted() && Fine(S(), nextId, nextTs)
      ensures var r := Place(AbsOf(s, id, old(nextTs)), side, price, qty);
              AbsOf(S(), nextId, nextTs) == r.book && id == r.id && trades == r.trades
      ensures trades == [] && (qty <= 0 || s.free == []) ==> S() == s
      ensures trades == [] && qty > 0 && s.free != [] ==>
                && CanRest(s, Order(id, side, price, qty, old(nextTs)))
                && S() == Rested(s, Order(id, side, price, qty, old(nextTs)))
    {
      hide Fine, Matched, Inserted, Rested, CanRest, AbsOf, Place, SideFine;
      ghost var m := S();
      if left > 0 && pool.freeHead != NULL {
        var o := Order(id, side, price, left, nextTs);
        FreshIdCanRest(s, m, id, nextTs, side, price, qty, left, trades, o);
        Rest(o);
        PlaceRests(s, m, S(), id, o.ts, side, price, qty, left, trades);
        assert nextId == id + 1 && nextTs == o.ts + 1;
      } else {
        PlaceEnds(s, m, id, nextTs, side, price, qty, left, trades);
      }
    }

    /** Places a limit order: exactly the reference placement, with the same id and trades. */
    method PlaceLimit(side: Side, price: int, qty: int) returns (id: nat, trades: seq<Trade>)
      requires Valid()
      modifies this, pool, pool.next, nodes
      ensures Valid()
      ensures var r := Place(old(Abs()), side, price, qty);
              Abs() == r.book && id == r.id == old(nextId) && trades == r.trades
      ensures trades == [] && (qty <= 0 || old(pool.free) == []) ==> S() == old(S())
      ensures trades == [] && qty > 0 && old(pool.free) != [] ==>
                && CanRest(old(S()), Order(id, side, price, qty, old(nextTs)))
                && S() == Rested(old(S()), Order(id, side, price, qty, old(nextTs)))
    {
      ghost var s := S();
      AbsBySide(s, nextId, nextTs, side);
      id := nextId;
      nextId := nextId + 1;
      assert S() == s;
      var left;
      left, trades := MatchAgainst(side, id, price, qty);
      RestRemainder(s, id, side, price, qty, left, trades);
    }

    // ----- cancelling -----

    /** Takes a slot out and prunes its level. */
    method Withdraw(side: Side, p: int, n: int, ghost k: nat)
      requires Counted() && Core(S()) && CanRemove(S(), side, p, k) && n == S().Qs(side)[p][k]
      requires n !in pool.free && nodes[n].id in index
      modifies this, pool, pool.next, nodes
      ensures Counted() && S() == CancelledShape(old(S()), side, p, k)
      ensures nextId == old(nextId) && nextTs == old(nextTs)
    {
      RemovedSide(S(), side, p, k, side);
      TakeOut(side, p, n, k);
      LevelFine(S(), side, p);
      if Lv(side)[p].head == NULL {
        EraseLevel(side, p);
      }
    }

    /** Cancels an order; succeeds exactly if it rests, and is the reference cancel. */
    method CancelOrder(id: nat) returns (ok: bool, ghost k: nat)
      requires Valid()
      modifies this, pool, pool.next, nodes
      ensures Valid()
      ensures ok == Rests(old(Abs()), id) && Abs() == Cancel(old(Abs()), id)
      ensures ok == (id in old(index)) && nextId == old(nextId) && nextTs == old(nextTs)
      ensures !ok ==> S() == old(S())
      ensures ok ==>
                var s := old(S());
                && id in s.index && 0 <= s.index[id] < |s.ns|
                && var n := s.ns[s.index[id]];
                   && CanRemove(s, n.side, n.price, k) && s.Qs(n.side)[n.price][k] == s.index[id]
                   && S() == CancelledShape(s, n.side, n.price, k)
    {
      ghost var s := S();
      k := 0;
      IndexedIffRests(s, nextId, nextTs, id);
      if id !in index {
        return false, k;
      }
      k := Located(s, id);
      var n := index[id];
      var px, side := nodes[n].price, nodes[n].side;
      // The level is always there: the branch the source marks as never happening is dead.
      assert px in Lv(side);
      Withdraw(side, px, n, k);
      CancelRefines(s, S(), nextId, nextTs, id, side, px, k);
      assert Fine(S(), nextId, nextTs);
      ok := true;
    }

    // ----- queries -----

    method BestBidPrice() returns (p: int)
      requires Valid()
      ensures p == BestBid(Abs())
    {
      BestKeyIsFront(S(), nextId, nextTs, Buy);
      p := if bids == map[] then 0 else Best(Buy, bids.Keys);
    }

    method BestAskPrice() returns (p: int)
      requires Valid()
      ensures p == BestAsk(Abs())
    {
      BestKeyIsFront(S(), nextId, nextTs, Sell);
      p := if asks == map[] then INT64_MAX else Best(Sell, asks.Keys);
    }

    /** Sums a level by walking its list. */
    method QtyAtPrice(side: Side, price: int) returns (q: int)
      requires Valid()
      ensures q == QtyAt(SideOf(Abs(), side), price)
    {
      ghost var s := S();
      SidesOf(s, side);
      QtyAtIsLevelSum(s, nextId, nextTs, side, price);
      q := 0;
      if price !in Lv(side) {
        return;
      }
      ghost var list := s.Qs(side)[price];
      LevelFine(s, side, price);
      var n := Lv(side)[price].head;
      ghost var k := 0;
      while n != NULL
        invariant 0 <= k <= |list|
        invariant n == if k < |list| then list[k] else NULL
        invariant q + Tail(s, list, k) == Tail(s, list, 0)
        decreases |list| - k
      {
        TailStep(s, list, k);
        assert LinkAt(s.ns, list, k);
        q := q + nodes[n].qty;
        n := nodes[n].next;
        k := k + 1;
      }
    }

    /** The index counts the resting orders, and so does the pool. */
    method Size() returns (n: nat)
      requires Valid()
      ensures n == |All(Abs())| == pool.inUse
    {
      n := |index|;
    }

    // ----- runs -----

    /** A placement that does not trade, seen on the shape alone. */
    method PlaceQuietly(side: Side, price: int, qty: int) returns (id: nat)
      requires Valid() && qty > 0 && pool.free != []
      requires CrossingQty(SideOf(Abs(), side.Opposite()), side, price) == 0
      modifies this, pool, pool.next, nodes
      ensures Valid() && id == old(nextId)
      ensures CanRest(old(S()), Order(id, side, price, qty, old(nextTs)))
      ensures S() == Rested(old(S()), Order(id, side, price, qty, old(nextTs)))
    {
      hide Fine, Rested, CanRest, AbsOf, CrossingQty;
      FineParts(S(), nextId, nextTs);
      NoTradesWithoutCrossing(Abs(), side, price, qty);
      var trades;
      id, trades := PlaceLimit(side, price, qty);
    }

    /** Placing an order that does not trade and cancelling it restores the book's own state. */
    method PlaceThenCancel(side: Side, price: int, qty: int) returns (id: nat, ok: bool)
      requires Valid() && qty > 0 && pool.free != []
      requires CrossingQty(SideOf(Abs(), side.Opposite()), side, price) == 0
      modifies this, pool, pool.next, nodes
      ensures Valid() && ok
      ensures S() == old(S()).(ns := nodes[..]) && pool.freeHead == old(pool.freeHead)
      ensures forall x :: 0 <= x < nodes.Length && x != old(pool.freeHead) ==> nodes[x] == old(nodes[x])
      ensures forall i :: 0 <= i < |pool.free| ==> pool.next[pool.free[i]] == old(pool.next[pool.free[i]])
    {
      hide Fine, Rested, CanRest, CancelledShape, CanRemove, AbsOf, Cancel, Rests, CrossingQty, NoEmptyLevel;
      ghost var s := S();
      ghost var o := Order(nextId, side, price, qty, nextTs);
      ghost var links := pool.next[..];
      FineParts(s, nextId, nextTs);
      id := PlaceQuietly(side, price, qty);
      ghost var t := S();
      RestedSlot(s, o);
      ghost var k;
      ok, k := CancelOrder(id);
      RestThenCancel(s, t, S(), o, k);
      LinksDetermined(links, pool.next[..], pool.free);
    }

    /** Any sequence of calls gets the reference run's replies and ends in its book. */
    method Serve(ops: seq<Op>) returns (replies: seq<Reply>)
      requires Valid()
      modifies this, pool, pool.next, nodes
      ensures Valid()
      ensures var r := Run(old(Abs()), ops);
              Abs() == r.book && replies == Observed(r.log)
    {
      hide Fine, AbsOf, Place, Cancel, Rests, Rested, CanRest, CancelledShape, CanRemove;
      ghost var b := Abs();
      replies := [];
      for i := 0 to |ops|
        invariant Valid() && Abs() == Run(b, ops[..i]).book && replies == Observed(Run(b, ops[..i]).log)
      {
        RunStep(b, ops, i);
        match ops[i]
        case PlaceOp(side, price, qty) =>
          var id, trades := PlaceLimit(side, price, qty);
          replies := replies + [Accepted(id, trades)];
        case CancelOp(id) =>
          ghost var k;
          var ok;
          ok, k := CancelOrder(id);
          replies := replies + [CancelReply(ok)];
      }
      assert ops[..|ops|] == ops;
    }
  }
}
