/** Every operation keeps the reference book's invariant, in particular that it is never crossed. */
module BookInvariant {
  import opened Orders
  import opened PriorityBook

  /** Every order of `r` carries the id and price of some order of `q`. */
  predicate DrawnFrom(q: seq<Order>, r: seq<Order>) {
    forall i :: 0 <= i < |r| ==> exists j :: 0 <= j < |q| && q[j].id == r[i].id && q[j].price == r[i].price
  }

  lemma TailKeeps(side: Side, q: seq<Order>, r: seq<Order>, nextId: nat, nextTs: nat)
    requires TailOf(q, r) && SideInv(side, q, nextId, nextTs)
    ensures SideInv(side, r, nextId, nextTs) && DrawnFrom(q, r)
  {
    var k := |q| - |r|;
    forall i | 0 <= i < |r|
      ensures r[i] == q[k + i].(qty := r[i].qty) && 0 < r[i].qty
    {
      if i > 0 {
        assert r[i] == r[1..][i - 1] == q[k + 1..][i - 1] == q[k + i];
        assert q[k + i].qty > 0;
      }
    }
    forall i, j | 0 <= i < j < |r|
      ensures Ahead(side, r[i], r[j]) && r[i].id != r[j].id
    {
      assert Ahead(side, q[k + i], q[k + j]) && q[k + i].id != q[k + j].id;
    }
    forall i | 0 <= i < |r|
      ensures r[i].side == side && r[i].id < nextId && r[i].ts < nextTs
    {
      assert q[k + i].side == side && q[k + i].id < nextId && q[k + i].ts < nextTs;
    }
  }

  lemma ApartFlips(side: Side, p: seq<Order>, q: seq<Order>)
    ensures Apart(side, p, q) <==> Apart(side.Opposite(), q, p)
  {
  }

  lemma DrawnFromKeepsApart(side: Side, p: seq<Order>, q: seq<Order>, r: seq<Order>)
    requires Apart(side, p, q) && DrawnFrom(q, r)
    ensures Apart(side, p, r)
  {
    forall i, j | 0 <= i < |p| && 0 <= j < |r|
      ensures p[i].id != r[j].id && !Crosses(side, p[i].price, r[j].price)
    {
      var k :| 0 <= k < |q| && q[k].id == r[j].id && q[k].price == r[j].price;
    }
  }

  /** The invariant seen from either side. */
  lemma InvBySide(b: Book, side: Side)
    ensures Inv(b) <==>
            && SideInv(side, SideOf(b, side), b.nextId, b.nextTs)
            && SideInv(side.Opposite(), SideOf(b, side.Opposite()), b.nextId, b.nextTs)
            && Apart(side, SideOf(b, side), SideOf(b, side.Opposite()))
            && b.nextId >= 1
  {
    ApartFlips(Buy, b.bids, b.asks);
  }

  /** Where `Insert` puts the new order. */
  function Position(side: Side, q: seq<Order>, price: int): (k: nat)
    ensures k <= |q|
    ensures forall i :: 0 <= i < k ==> !Better(side, price, q[i].price)
    ensures k < |q| ==> Better(side, price, q[k].price)
  {
    if q == [] || Better(side, price, q[0].price) then 0
    else 1 + Position(side, q[1..], price)
  }

  lemma {:induction false} InsertAt(side: Side, q: seq<Order>, o: Order)
    ensures Insert(side, q, o) == Spliced(q, Position(side, q, o.price), o)
    decreases |q|
  {
    if q != [] && !Better(side, o.price, q[0].price) {
      InsertAt(side, q[1..], o);
      var k := Position(side, q[1..], o.price);
      assert q[..k + 1] == [q[0]] + q[1..][..k];
      assert q[k + 1..] == q[1..][k..];
    }
  }

  /** The sequence `q` with `o` put in at `k`. */
  function Spliced(q: seq<Order>, k: nat, o: Order): (r: seq<Order>)
    requires k <= |q|
    ensures |r| == |q| + 1
    ensures forall i :: 0 <= i < |r| ==> r[i] == if i < k then q[i] else if i == k then o else q[i - 1]
  {
    q[..k] + [o] + q[k..]
  }

  lemma SplicePrioritised(side: Side, q: seq<Order>, o: Order)
    requires Prioritised(side, q)
    requires forall i :: 0 <= i < |q| ==> q[i].ts < o.ts
    ensures Prioritised(side, Spliced(q, Position(side, q, o.price), o))
  {
    var k := Position(side, q, o.price);
    var r := Spliced(q, k, o);
    forall i, j | 0 <= i < j < |r|
      ensures Ahead(side, r[i], r[j])
    {
      if i == k {
        assert j - 1 == k || Ahead(side, q[k], q[j - 1]);
      } else if j != k {
        var i', j' := if i < k then i else i - 1, if j < k then j else j - 1;
        assert Ahead(side, q[i'], q[j']);
      }
    }
  }

  lemma SpliceDistinct(q: seq<Order>, k: nat, o: Order)
    requires k <= |q| && DistinctIds(q)
    requires forall i :: 0 <= i < |q| ==> q[i].id != o.id
    ensures DistinctIds(Spliced(q, k, o))
  {
    var r := Spliced(q, k, o);
    forall i, j | 0 <= i < j < |r|
      ensures r[i].id != r[j].id
    {
      if i != k && j != k {
        var i', j' := if i < k then i else i - 1, if j < k then j else j - 1;
        assert q[i'].id != q[j'].id;
      }
    }
  }

  lemma InsertKeeps(side: Side, q: seq<Order>, o: Order, nextId: nat, nextTs: nat)
    requires SideInv(side, q, o.id, o.ts)
    requires o.side == side && o.qty > 0 && o.id < nextId && o.ts < nextTs
    ensures SideInv(side, Insert(side, q, o), nextId, nextTs)
  {
    InsertAt(side, q, o);
    SplicePrioritised(side, q, o);
    SpliceDistinct(q, Position(side, q, o.price), o);
  }

  lemma InsertKeepsApart(side: Side, p: seq<Order>, q: seq<Order>, o: Order)
    requires Apart(side, p, q)
    requires forall j :: 0 <= j < |q| ==> o.id != q[j].id && !Crosses(side, o.price, q[j].price)
    ensures Apart(side, Insert(side, p, o), q)
  {
    InsertAt(side, p, o);
    var r := Spliced(p, Position(side, p, o.price), o);
    assert r == Insert(side, p, o);
  }

  lemma {:induction false} RemoveAbsent(q: seq<Order>, id: nat)
    requires forall i :: 0 <= i < |q| ==> q[i].id != id
    ensures Remove(q, id) == q
  {
    if q != [] {
      RemoveAbsent(q[1..], id);
    }
  }

  lemma {:induction false} RemoveAt(q: seq<Order>, k: nat)
    requires k < |q| && DistinctIds(q)
    ensures Remove(q, q[k].id) == q[..k] + q[k + 1..]
  {
    var id := q[k].id;
    if k == 0 {
      RemoveAbsent(q[1..], id);
    } else {
      RemoveAt(q[1..], k - 1);
      assert q[..k] == [q[0]] + q[1..][..k - 1];
      assert q[k + 1..] == q[1..][k..];
    }
  }

  lemma RemoveKeeps(side: Side, q: seq<Order>, id: nat, nextId: nat, nextTs: nat)
    requires SideInv(side, q, nextId, nextTs)
    ensures SideInv(side, Remove(q, id), nextId, nextTs) && DrawnFrom(q, Remove(q, id))
  {
    if k: nat :| k < |q| && q[k].id == id {
      RemoveAt(q, k);
      var r := q[..k] + q[k + 1..];
      forall i | 0 <= i < |r|
        ensures r[i] == q[if i < k then i else i + 1]
      {
      }
      forall i, j | 0 <= i < j < |r|
        ensures Ahead(side, r[i], r[j]) && r[i].id != r[j].id
      {
        var i', j' := if i < k then i else i + 1, if j < k then j else j + 1;
        assert Ahead(side, q[i'], q[j']) && q[i'].id != q[j'].id;
      }
    } else {
      RemoveAbsent(q, id);
    }
  }

  lemma WellTaggedIsPositive(side: Side, q: seq<Order>, nextId: nat, nextTs: nat)
    requires WellTagged(side, q, nextId, nextTs)
    ensures AllPositive(q)
  {
  }

  lemma CancelKeepsInv(b: Book, id: nat)
    requires Inv(b)
    ensures Inv(Cancel(b, id))
  {
    RemoveKeeps(Buy, b.bids, id, b.nextId, b.nextTs);
    RemoveKeeps(Sell, b.asks, id, b.nextId, b.nextTs);
    DrawnFromKeepsApart(Buy, b.bids, b.asks, Remove(b.asks, id));
    ApartFlips(Buy, b.bids, Remove(b.asks, id));
    DrawnFromKeepsApart(Sell, Remove(b.asks, id), b.bids, Remove(b.bids, id));
    ApartFlips(Buy, Remove(b.bids, id), Remove(b.asks, id));
  }

  /** The book after matching and before resting the remainder. */
  lemma MatchKeepsInv(b: Book, side: Side, price: int, qty: int)
    requires Inv(b)
    ensures var f := Fill(SideOf(b, side.Opposite()), side, b.nextId, price, qty);
            Inv(WithSide(b, side.Opposite(), f.rest))
  {
    var opp := side.Opposite();
    var q := SideOf(b, opp);
    InvBySide(b, side);
    WellTaggedIsPositive(opp, q, b.nextId, b.nextTs);
    FillRest(q, side, b.nextId, price, qty);
    var r := Fill(q, side, b.nextId, price, qty).rest;
    TailKeeps(opp, q, r, b.nextId, b.nextTs);
    DrawnFromKeepsApart(side, SideOf(b, side), q, r);
    InvBySide(WithSide(b, opp, r), side);
  }

  lemma WeakenTags(side: Side, q: seq<Order>, nextId: nat, nextTs: nat, nextId': nat, nextTs': nat)
    requires SideInv(side, q, nextId, nextTs) && nextId <= nextId' && nextTs <= nextTs'
    ensures SideInv(side, q, nextId', nextTs')
  {
  }

  lemma CountersKeepInv(b: Book, nextId: nat, nextTs: nat, free: nat)
    requires Inv(b) && b.nextId <= nextId && b.nextTs <= nextTs
    ensures Inv(b.(nextId := nextId, nextTs := nextTs, free := free))
  {
    WeakenTags(Buy, b.bids, b.nextId, b.nextTs, nextId, nextTs);
    WeakenTags(Sell, b.asks, b.nextId, b.nextTs, nextId, nextTs);
  }

  lemma RestKeepsInv(b: Book, side: Side, o: Order, free: nat)
    requires Inv(b)
    requires o.side == side && o.qty > 0 && o.id == b.nextId && o.ts == b.nextTs
    requires forall i :: 0 <= i < |SideOf(b, side.Opposite())| ==>
               !Crosses(side, o.price, SideOf(b, side.Opposite())[i].price)
    ensures Inv(WithSide(b, side, Insert(side, SideOf(b, side), o))
                .(nextId := b.nextId + 1, nextTs := b.nextTs + 1, free := free))
  {
    var opp := side.Opposite();
    InvBySide(b, side);
    InsertKeeps(side, SideOf(b, side), o, b.nextId + 1, b.nextTs + 1);
    InsertKeepsApart(side, SideOf(b, side), SideOf(b, opp), o);
    WeakenTags(opp, SideOf(b, opp), b.nextId, b.nextTs, b.nextId + 1, b.nextTs + 1);
    InvBySide(WithSide(b, side, Insert(side, SideOf(b, side), o))
              .(nextId := b.nextId + 1, nextTs := b.nextTs + 1, free := free), side);
  }

  lemma RemainderDoesNotCross(b: Book, side: Side, price: int, qty: int)
    requires Inv(b)
    ensures var f := Fill(SideOf(b, side.Opposite()), side, b.nextId, price, qty);
            f.left > 0 ==> forall i :: 0 <= i < |f.rest| ==> !Crosses(side, price, f.rest[i].price)
  {
    InvBySide(b, side);
    var q := SideOf(b, side.Opposite());
    if Fill(q, side, b.nextId, price, qty).left > 0 {
      FillExhausts(q, side, b.nextId, price, qty);
    }
  }

  lemma PlaceKeepsInv(b: Book, side: Side, price: int, qty: int)
    requires Inv(b)
    ensures Inv(Place(b, side, price, qty).book)
  {
    MatchKeepsInv(b, side, price, qty);
    var q := SideOf(b, side.Opposite());
    var f := Fill(q, side, b.nextId, price, qty);
    var m := WithSide(b, side.Opposite(), f.rest);
    var free := b.free + (|q| - |f.rest|);
    if f.left > 0 && free > 0 {
      RemainderDoesNotCross(b, side, price, qty);
      RestKeepsInv(m, side, Order(b.nextId, side, price, f.left, b.nextTs), free - 1);
    } else {
      CountersKeepInv(m, b.nextId + 1, b.nextTs, free);
    }
  }

  /**
    Price-time priority: a placement trades the opposite side's orders in strict (price, arrival)
    order, at the makers' prices and within the limit, as much as crosses and no more; an order
    ahead of a traded maker has itself been traded whole.
   */
  lemma PriceTimePriority(b: Book, side: Side, price: int, qty: int)
    requires Inv(b)
    ensures var r := Place(b, side, price, qty);
            var q := SideOf(b, side.Opposite());
            && GreedyPrefix(q, side, r.id, price, r.trades)
            && Total(r.trades) == Min(Max(qty, 0), CrossingQty(q, side, price))
            && NobodyOvertaken(side.Opposite(), q, r.trades)
  {
    var q := SideOf(b, side.Opposite());
    InvBySide(b, side);
    WellTaggedIsPositive(side.Opposite(), q, b.nextId, b.nextTs);
    FillIsGreedy(q, side, b.nextId, price, qty);
    FillTakesAllThatCrosses(q, side, b.nextId, price, qty);
    GreedyOvertakesNobody(q, side, b.nextId, price, Place(b, side, price, qty).trades);
  }

  /** Whoever is ahead of a traded maker has been traded before it, and whole. */
  predicate NobodyOvertaken(side: Side, q: seq<Order>, ts: seq<Trade>) {
    && |ts| <= |q|
    && forall i, j :: 0 <= i < |ts| && 0 <= j < |q| && Ahead(side, q[j], q[i]) ==>
         j < i && ts[j].makerId == q[j].id && ts[j].qty == q[j].qty
  }

  lemma GreedyOvertakesNobody(q: seq<Order>, taker: Side, id: nat, limit: int, ts: seq<Trade>)
    requires Prioritised(taker.Opposite(), q) && GreedyPrefix(q, taker, id, limit, ts)
    ensures NobodyOvertaken(taker.Opposite(), q, ts)
  {
    forall i, j | 0 <= i < |ts| && 0 <= j < |q| && Ahead(taker.Opposite(), q[j], q[i])
      ensures j < i && ts[j].makerId == q[j].id && ts[j].qty == q[j].qty
    {
      AheadMeansBefore(taker.Opposite(), q, j, i);
    }
  }

  lemma AheadMeansBefore(side: Side, q: seq<Order>, j: nat, i: nat)
    requires Prioritised(side, q) && i < |q| && j < |q|
    ensures Ahead(side, q[j], q[i]) ==> j < i
  {
    if i < j {
      assert Ahead(side, q[i], q[j]);
    }
  }

  /** A remainder is dropped exactly when quantity is wanted, nothing crosses and no slot is free. */
  lemma DroppedOnlyWithoutTrades(b: Book, side: Side, price: int, qty: int)
    requires Inv(b)
    ensures var r := Place(b, side, price, qty);
            && (r.dropped != 0 <==> qty > 0 && b.free == 0
                                    && CrossingQty(SideOf(b, side.Opposite()), side, price) == 0)
            && (r.dropped != 0 ==> r.trades == [] && r.dropped == qty && r.book == b.(nextId := b.nextId + 1))
  {
    var q := SideOf(b, side.Opposite());
    WellTaggedIsPositive(side.Opposite(), q, b.nextId, b.nextTs);
    var f := Fill(q, side, b.nextId, price, qty);
    FillTakesAllThatCrosses(q, side, b.nextId, price, qty);
    FillIsGreedy(q, side, b.nextId, price, qty);
    PositiveTotal(f.trades);
    if f.left > 0 {
      FillExhausts(q, side, b.nextId, price, qty);
    }
  }

  lemma {:induction false} PositiveTotal(ts: seq<Trade>)
    requires forall i :: 0 <= i < |ts| ==> ts[i].qty > 0
    ensures Total(ts) >= |ts|
  {
    if ts != [] {
      PositiveTotal(ts[1..]);
    }
  }

  lemma NoTradesWithoutCrossing(b: Book, side: Side, price: int, qty: int)
    requires Inv(b) && CrossingQty(SideOf(b, side.Opposite()), side, price) == 0
    ensures Place(b, side, price, qty).trades == []
  {
    PriceTimePriority(b, side, price, qty);
    PositiveTotal(Place(b, side, price, qty).trades);
  }

  // ----- which makers a placement will reach, told from the book before it -----

  /** Quantity of the first `j` orders. */
  function Depth(q: seq<Order>, j: nat): int
    requires j <= |q|
  {
    if j == 0 then 0 else q[0].qty + Depth(q[1..], j - 1)
  }

  /** A taker will trade with order `j` of the opposite queue. */
  predicate Reached(q: seq<Order>, taker: Side, limit: int, qty: int, j: nat) {
    j < |q| && Crosses(taker, limit, q[j].price) && Depth(q, j) < qty
  }

  /** A taker will trade with order `j` and leave some of it. */
  predicate LeftPartly(q: seq<Order>, taker: Side, limit: int, qty: int, j: nat) {
    Reached(q, taker, limit, qty, j) && qty < Depth(q, j + 1)
  }

  lemma {:induction false} DepthSign(q: seq<Order>, j: nat)
    requires AllPositive(q) && j <= |q|
    ensures Depth(q, j) >= 0
  {
    if j > 0 {
      DepthSign(q[1..], j - 1);
    }
  }

  /** The trades are with exactly the orders reached, whole unless left partly. */
  lemma {:induction false} TradesReach(q: seq<Order>, taker: Side, id: nat, limit: int, qty: int, j: nat)
    requires Prioritised(taker.Opposite(), q) && AllPositive(q) && j < |q|
    ensures var ts := Fill(q, taker, id, limit, qty).trades;
            && (j < |ts| <==> Reached(q, taker, limit, qty, j))
            && (j < |ts| ==> (ts[j].qty < q[j].qty <==> LeftPartly(q, taker, limit, qty, j)))
    decreases |q|
  {
    DepthSign(q, j);
    assert Depth(q[1..], 0) == 0 && Depth(q, 1) == q[0].qty;
    if qty <= 0 {
    } else if !Crosses(taker, limit, q[0].price) {
      FrontDecides(q, taker, limit);
    } else if q[0].qty <= qty {
      if j > 0 {
        TradesReach(q[1..], taker, id, limit, qty - q[0].qty, j - 1);
        assert Depth(q, j) == q[0].qty + Depth(q[1..], j - 1) && Depth(q, j + 1) == q[0].qty + Depth(q[1..], j);
      }
    } else if j > 0 {
      DepthSign(q[1..], j - 1);
    }
  }

  /** The same for a placement on a valid book. */
  lemma PlacementReaches(b: Book, side: Side, price: int, qty: int, j: nat)
    requires Inv(b) && j < |SideOf(b, side.Opposite())|
    ensures var q := SideOf(b, side.Opposite());
            var ts := Place(b, side, price, qty).trades;
            && |ts| <= |q|
            && (j < |ts| <==> Reached(q, side, price, qty, j))
            && (j < |ts| ==> ts[j].makerId == q[j].id && (ts[j].qty < q[j].qty <==> LeftPartly(q, side, price, qty, j)))
  {
    InvBySide(b, side.Opposite());
    var q := SideOf(b, side.Opposite());
    WellTaggedIsPositive(side.Opposite(), q, b.nextId, b.nextTs);
    TradesReach(q, side, b.nextId, price, qty, j);
    PriceTimePriority(b, side, price, qty);
  }
}
