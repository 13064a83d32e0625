/** Whole-run laws of the reference book: conservation of quantity, fresh ids, cancel at most once. */
module BookRuns {
  import opened Orders
  import opened PriorityBook
  import opened BookInvariant

  datatype Op = PlaceOp(side: Side, price: int, qty: int) | CancelOp(id: nat)

  /** What an operation reports; `Cancelled` also records the quantity it took off the book. */
  datatype Event =
    | Placed(id: nat, qty: int, trades: seq<Trade>, dropped: int)
    | Cancelled(id: nat, qty: int)
    | Missed(id: nat)

  datatype Outcome = Outcome(book: Book, log: seq<Event>)

  /** Quantity of the orders of `q` carrying `id`. */
  function QtyOf(q: seq<Order>, id: nat): int {
    if q == [] then 0 else (if q[0].id == id then q[0].qty else 0) + QtyOf(q[1..], id)
  }

  function Resting(b: Book, id: nat): int {
    QtyOf(b.bids, id) + QtyOf(b.asks, id)
  }

  function Happen(b: Book, op: Op): Event {
    match op
    case PlaceOp(side, price, qty) =>
      var r := Place(b, side, price, qty);
      Placed(r.id, qty, r.trades, r.dropped)
    case CancelOp(id) =>
      if Rests(b, id) then Cancelled(id, Resting(b, id)) else Missed(id)
  }

  function After(b: Book, op: Op): Book {
    match op
    case PlaceOp(side, price, qty) => Place(b, side, price, qty).book
    case CancelOp(id) => Cancel(b, id)
  }

  function Run(b: Book, ops: seq<Op>): (r: Outcome)
    ensures |r.log| == |ops|
  {
    if ops == [] then Outcome(b, [])
    else
      var n := |ops| - 1;
      var r := Run(b, ops[..n]);
      Outcome(After(r.book, ops[n]), r.log + [Happen(r.book, ops[n])])
  }

  // ----- every reachable book -----

  lemma {:induction false} RunKeepsInv(b: Book, ops: seq<Op>)
    requires Inv(b)
    ensures Inv(Run(b, ops).book)
  {
    if ops != [] {
      var n := |ops| - 1;
      RunKeepsInv(b, ops[..n]);
      var r := Run(b, ops[..n]).book;
      match ops[n]
      case PlaceOp(side, price, qty) => PlaceKeepsInv(r, side, price, qty);
      case CancelOp(id) => CancelKeepsInv(r, id);
    }
  }

  /** After every run the best bid lies strictly below the best ask. */
  lemma NeverCrossed(capacity: nat, ops: seq<Op>)
    ensures var b := Run(Empty(capacity), ops).book;
            && Inv(b)
            && (b.bids != [] && b.asks != [] ==> BestBid(b) < BestAsk(b))
  {
    RunKeepsInv(Empty(capacity), ops);
  }

  // ----- slots -----

  lemma InsertLength(side: Side, q: seq<Order>, o: Order)
    ensures |Insert(side, q, o)| == |q| + 1
  {
    InsertAt(side, q, o);
  }

  lemma CancelFreesOne(b: Book, id: nat)
    requires Inv(b)
    ensures Cancel(b, id).free + |All(Cancel(b, id))| == b.free + |All(b)|
    ensures Rests(b, id) ==> |All(Cancel(b, id))| == |All(b)| - 1
  {
    if i :| 0 <= i < |All(b)| && All(b)[i].id == id {
      if i < |b.bids| {
        RemoveAt(b.bids, i);
        RemoveAbsent(b.asks, id);
      } else {
        RemoveAt(b.asks, i - |b.bids|);
        RemoveAbsent(b.bids, id);
      }
    }
  }

  lemma PlaceKeepsSlots(b: Book, side: Side, price: int, qty: int)
    ensures var r := Place(b, side, price, qty).book;
            r.free + |All(r)| == b.free + |All(b)|
  {
    var f := Fill(SideOf(b, side.Opposite()), side, b.nextId, price, qty);
    InsertLength(side, SideOf(b, side), Order(b.nextId, side, price, f.left, b.nextTs));
  }

  /** Used and free slots always add up to the capacity. */
  lemma {:induction false} SlotsConserved(capacity: nat, ops: seq<Op>)
    ensures var b := Run(Empty(capacity), ops).book;
            b.free + |All(b)| == capacity
  {
    if ops != [] {
      var n := |ops| - 1;
      SlotsConserved(capacity, ops[..n]);
      RunKeepsInv(Empty(capacity), ops[..n]);
      var r := Run(Empty(capacity), ops[..n]).book;
      match ops[n]
      case PlaceOp(side, price, qty) => PlaceKeepsSlots(r, side, price, qty);
      case CancelOp(id) => CancelFreesOne(r, id);
    }
  }

  // ----- quantity -----

  /** The fate of one order's quantity. */
  datatype Account = Account(placed: int, taken: int, made: int, cancelled: int, dropped: int)

  function TakenBy(ts: seq<Trade>, id: nat): int {
    if ts == [] then 0 else (if ts[0].takerId == id then ts[0].qty else 0) + TakenBy(ts[1..], id)
  }

  function MadeBy(ts: seq<Trade>, id: nat): int {
    if ts == [] then 0 else (if ts[0].makerId == id then ts[0].qty else 0) + MadeBy(ts[1..], id)
  }

  function Posted(a: Account, e: Event, id: nat): Account {
    match e
    case Placed(x, qty, trades, dropped) =>
      Account(a.placed + (if x == id then Max(qty, 0) else 0),
              a.taken + TakenBy(trades, id),
              a.made + MadeBy(trades, id),
              a.cancelled,
              a.dropped + (if x == id then dropped else 0))
    case Cancelled(x, qty) => a.(cancelled := a.cancelled + (if x == id then qty else 0))
    case Missed(_) => a
  }

  function Ledger(log: seq<Event>, id: nat): Account {
    if log == [] then Account(0, 0, 0, 0, 0)
    else Posted(Ledger(log[..|log| - 1], id), log[|log| - 1], id)
  }

  lemma {:induction false} QtyOfInsert(side: Side, q: seq<Order>, o: Order, id: nat)
    ensures QtyOf(Insert(side, q, o), id) == QtyOf(q, id) + if o.id == id then o.qty else 0
    decreases |q|
  {
    if q == [] || Better(side, o.price, q[0].price) {
      assert ([o] + q)[1..] == q;
    } else {
      QtyOfInsert(side, q[1..], o, id);
      assert ([q[0]] + Insert(side, q[1..], o))[1..] == Insert(side, q[1..], o);
    }
  }

  lemma {:induction false} QtyOfRemove(q: seq<Order>, x: nat, id: nat)
    ensures QtyOf(Remove(q, x), id) == if x == id then 0 else QtyOf(q, id)
  {
    if q != [] {
      QtyOfRemove(q[1..], x, id);
      assert [] + Remove(q[1..], x) == Remove(q[1..], x);
      assert ([q[0]] + Remove(q[1..], x))[1..] == Remove(q[1..], x);
    }
  }

  /** What the makers lose is what the trades report, maker by maker. */
  lemma {:induction false} QtyOfFill(q: seq<Order>, taker: Side, id: nat, limit: int, qty: int, maker: nat)
    ensures var r := Fill(q, taker, id, limit, qty);
            QtyOf(q, maker) == QtyOf(r.rest, maker) + MadeBy(r.trades, maker)
    decreases |q|
  {
    if qty > 0 && q != [] && Crosses(taker, limit, q[0].price) {
      var r := Fill(q, taker, id, limit, qty);
      if q[0].qty <= qty {
        QtyOfFill(q[1..], taker, id, limit, qty - q[0].qty, maker);
        assert r.trades[1..] == Fill(q[1..], taker, id, limit, qty - q[0].qty).trades;
      } else {
        assert r.rest[1..] == q[1..];
      }
    }
  }

  /** What the taker gains is what the trades report, all of it under its own id. */
  lemma {:induction false} TakenByFill(q: seq<Order>, taker: Side, id: nat, limit: int, qty: int, x: nat)
    ensures var r := Fill(q, taker, id, limit, qty);
            && TakenBy(r.trades, x) == (if x == id then Total(r.trades) else 0)
            && r.left == qty - Total(r.trades)
    decreases |q|
  {
    if qty > 0 && q != [] && Crosses(taker, limit, q[0].price) && q[0].qty <= qty {
      TakenByFill(q[1..], taker, id, limit, qty - q[0].qty, x);
      var r := Fill(q, taker, id, limit, qty);
      assert r.trades[1..] == Fill(q[1..], taker, id, limit, qty - q[0].qty).trades;
    }
  }

  /** Taken and left add up to what was asked for; a non-positive request takes nothing. */
  lemma {:induction false} FillLeavesNothingNegative(q: seq<Order>, taker: Side, id: nat, limit: int, qty: int)
    ensures var r := Fill(q, taker, id, limit, qty);
            Max(r.left, 0) + Total(r.trades) == Max(qty, 0)
    decreases |q|
  {
    if qty > 0 && q != [] && Crosses(taker, limit, q[0].price) && q[0].qty <= qty {
      FillLeavesNothingNegative(q[1..], taker, id, limit, qty - q[0].qty);
      var r := Fill(q, taker, id, limit, qty);
      assert r.trades[1..] == Fill(q[1..], taker, id, limit, qty - q[0].qty).trades;
    }
  }

  lemma PlaceConserves(b: Book, side: Side, price: int, qty: int, id: nat)
    ensures var r := Place(b, side, price, qty);
            && Resting(r.book, id) ==
               Resting(b, id) - MadeBy(r.trades, id)
               + (if id == r.id then Max(qty, 0) - Total(r.trades) - r.dropped else 0)
            && TakenBy(r.trades, id) == (if id == r.id then Total(r.trades) else 0)
  {
    var q := SideOf(b, side.Opposite());
    var f := Fill(q, side, b.nextId, price, qty);
    QtyOfFill(q, side, b.nextId, price, qty, id);
    TakenByFill(q, side, b.nextId, price, qty, id);
    FillLeavesNothingNegative(q, side, b.nextId, price, qty);
    QtyOfInsert(side, SideOf(b, side), Order(b.nextId, side, price, f.left, b.nextTs), id);
  }

  /**
    Conservation: over any run, what was placed under an id has been traded as taker, traded as
    maker, cancelled, dropped for lack of a slot, or is still resting. Nothing else happens to it.
   */
  lemma {:induction false} Conservation(capacity: nat, ops: seq<Op>, id: nat)
    ensures var r := Run(Empty(capacity), ops);
            var a := Ledger(r.log, id);
            a.placed == a.taken + a.made + a.cancelled + a.dropped + Resting(r.book, id)
  {
    if ops != [] {
      var n := |ops| - 1;
      Conservation(capacity, ops[..n], id);
      var r := Run(Empty(capacity), ops[..n]);
      assert Run(Empty(capacity), ops).log[..n] == r.log;
      match ops[n]
      case PlaceOp(side, price, qty) => PlaceConserves(r.book, side, price, qty, id);
      case CancelOp(x) =>
        QtyOfRemove(r.book.bids, x, id);
        QtyOfRemove(r.book.asks, x, id);
    }
  }

  // ----- ids -----

  function PlacedIds(log: seq<Event>): seq<nat> {
    if log == [] then []
    else
      var e := log[|log| - 1];
      PlacedIds(log[..|log| - 1]) + (if e.Placed? then [e.id] else [])
  }

  function Cancellations(log: seq<Event>, id: nat): nat {
    if log == [] then 0
    else
      var e := log[|log| - 1];
      Cancellations(log[..|log| - 1], id) + (if e.Cancelled? && e.id == id then 1 else 0)
  }

  /** Placements get the ids 1, 2, 3, ... whatever happens between them. */
  lemma {:induction false} IdsAreConsecutive(capacity: nat, ops: seq<Op>)
    ensures var r := Run(Empty(capacity), ops);
            && r.book.nextId == |PlacedIds(r.log)| + 1
            && forall i :: 0 <= i < |PlacedIds(r.log)| ==> PlacedIds(r.log)[i] == i + 1
  {
    if ops != [] {
      var n := |ops| - 1;
      IdsAreConsecutive(capacity, ops[..n]);
      assert Run(Empty(capacity), ops).log[..n] == Run(Empty(capacity), ops[..n]).log;
    }
  }

  lemma RestsHasQty(b: Book, id: nat)
    requires Inv(b)
    ensures Rests(b, id) <==> Resting(b, id) > 0
    ensures Resting(b, id) >= 0
    ensures Rests(b, id) ==> id < b.nextId
  {
    QtyOfSign(b.bids, id);
    QtyOfSign(b.asks, id);
    if i :| 0 <= i < |b.bids| && b.bids[i].id == id {
      assert All(b)[i].id == id;
    }
    if i :| 0 <= i < |b.asks| && b.asks[i].id == id {
      assert All(b)[|b.bids| + i].id == id;
    }
  }

  lemma {:induction false} QtyOfSign(q: seq<Order>, id: nat)
    requires AllPositive(q)
    ensures QtyOf(q, id) >= 0
    ensures QtyOf(q, id) > 0 <==> exists i :: 0 <= i < |q| && q[i].id == id
  {
    if q != [] {
      QtyOfSign(q[1..], id);
      if q[0].id != id {
        if i :| 0 <= i < |q| && q[i].id == id {
          assert q[1..][i - 1].id == id;
        }
      }
    }
  }

  lemma {:induction false} MadeBySign(ts: seq<Trade>, id: nat)
    requires forall i :: 0 <= i < |ts| ==> ts[i].qty > 0
    ensures MadeBy(ts, id) >= 0
  {
    if ts != [] {
      MadeBySign(ts[1..], id);
    }
  }

  lemma {:induction false} NotMade(ts: seq<Trade>, id: nat)
    requires forall i :: 0 <= i < |ts| ==> ts[i].makerId != id
    ensures MadeBy(ts, id) == 0
  {
    if ts != [] {
      NotMade(ts[1..], id);
    }
  }

  lemma PlaceOnlyReduces(b: Book, side: Side, price: int, qty: int, id: nat)
    requires Inv(b) && id < b.nextId
    ensures 0 <= Resting(Place(b, side, price, qty).book, id) <= Resting(b, id)
  {
    PlaceConserves(b, side, price, qty, id);
    PriceTimePriority(b, side, price, qty);
    MadeBySign(Place(b, side, price, qty).trades, id);
    PlaceKeepsInv(b, side, price, qty);
    RestsHasQty(Place(b, side, price, qty).book, id);
  }

  /** An id is cancelled successfully at most once, and is off the book for good afterwards. */
  lemma {:induction false} CancelledOnce(capacity: nat, ops: seq<Op>, id: nat)
    ensures var r := Run(Empty(capacity), ops);
            && Cancellations(r.log, id) <= 1
            && (Cancellations(r.log, id) == 1 ==> !Rests(r.book, id) && id < r.book.nextId)
  {
    if ops != [] {
      var n := |ops| - 1;
      CancelledOnce(capacity, ops[..n], id);
      RunKeepsInv(Empty(capacity), ops[..n]);
      RunKeepsInv(Empty(capacity), ops);
      var r := Run(Empty(capacity), ops[..n]);
      assert Run(Empty(capacity), ops).log[..n] == r.log;
      RestsHasQty(r.book, id);
      RestsHasQty(Run(Empty(capacity), ops).book, id);
      match ops[n]
      case PlaceOp(side, price, qty) =>
        if id < r.book.nextId {
          PlaceOnlyReduces(r.book, side, price, qty, id);
        }
      case CancelOp(x) =>
        QtyOfRemove(r.book.bids, x, id);
        QtyOfRemove(r.book.asks, x, id);
    }
  }

  // ----- what a caller of the book sees -----

  datatype Reply = Accepted(id: nat, trades: seq<Trade>) | CancelReply(ok: bool)

  function Observe(e: Event): Reply {
    match e
    case Placed(id, _, trades, _) => Accepted(id, trades)
    case Cancelled(_, _) => CancelReply(true)
    case Missed(_) => CancelReply(false)
  }

  function Observed(log: seq<Event>): seq<Reply> {
    seq(|log|, i requires 0 <= i < |log| => Observe(log[i]))
  }

  lemma RunStep(b: Book, ops: seq<Op>, i: nat)
    requires i < |ops|
    ensures var r := Run(b, ops[..i]);
            && Run(b, ops[..i + 1]).book == After(r.book, ops[i])
            && Observed(Run(b, ops[..i + 1]).log) == Observed(r.log) + [Observe(Happen(r.book, ops[i]))]
  {
    assert ops[..i + 1][..i] == ops[..i];
  }
}
