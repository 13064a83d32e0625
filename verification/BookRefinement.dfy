/**
  Placing and cancelling on the linked shape, step by step, and what each step means for the
  reference book.
 */
module BookRefinement {
  import opened Orders
  import opened PriorityBook
  import opened BookInvariant
  import opened ObjectPools
  import opened Levels
  import opened BookShape
  import opened BookEdits
  import opened BookRuns

  // ----- the book a shape stands for -----

  ghost function AbsOf(s: Shape, ids: nat, ts: nat): Book
    requires Core(s)
  {
    Book(Flat(s, Buy), Flat(s, Sell), ids, ts, |s.free|)
  }

  /** A shape between operations: consistent, no empty level, standing for a sound book. */
  ghost predicate Fine(s: Shape, ids: nat, ts: nat) {
    && Core(s) && NoEmptyLevel(s)
    && (forall id :: id in s.index ==> id < ids)
    && Inv(AbsOf(s, ids, ts))
    && |s.free| + |All(AbsOf(s, ids, ts))| == |s.ns|
  }

  lemma AbsBySide(s: Shape, ids: nat, ts: nat, side: Side)
    requires Core(s)
    ensures SideFine(s, side) && SideFine(s, side.Opposite())
    ensures SideOf(AbsOf(s, ids, ts), side) == Flat(s, side)
    ensures AbsOf(s, ids, ts) == Book(Pick(side, Flat(s, side), Flat(s, side.Opposite())),
                                      Pick(side, Flat(s, side.Opposite()), Flat(s, side)), ids, ts, |s.free|)
  {
  }

  // ----- one matching step on the flat order -----

  /** Matching the rest `cur` with `left` completes matching `q` with `qty`, given `ts` so far. */
  predicate Continues(q: seq<Order>, qty: int, taker: Side, id: nat, limit: int,
                      cur: seq<Order>, left: int, ts: seq<Trade>)
  {
    var whole := Fill(q, taker, id, limit, qty);
    var tail := Fill(cur, taker, id, limit, left);
    whole.rest == tail.rest && whole.left == tail.left && whole.trades == ts + tail.trades
  }

  function HeadTrade(q: seq<Order>, id: nat, qty: int): Trade
    requires q != []
  {
    Trade(id, q[0].id, q[0].price, Min(qty, q[0].qty))
  }

  /** The queue after its head has traded against `qty`. */
  function HeadRest(q: seq<Order>, qty: int): seq<Order>
    requires q != []
  {
    if q[0].qty <= qty then q[1..] else [q[0].(qty := q[0].qty - qty)] + q[1..]
  }

  lemma ContinuesStep(q: seq<Order>, qty: int, taker: Side, id: nat, limit: int,
                      cur: seq<Order>, left: int, ts: seq<Trade>)
    requires Continues(q, qty, taker, id, limit, cur, left, ts)
    requires left > 0 && cur != [] && Crosses(taker, limit, cur[0].price)
    ensures Continues(q, qty, taker, id, limit, HeadRest(cur, left),
                      left - Min(left, cur[0].qty), ts + [HeadTrade(cur, id, left)])
  {
    var tail := Fill(HeadRest(cur, left), taker, id, limit, left - Min(left, cur[0].qty));
    assert ts + ([HeadTrade(cur, id, left)] + tail.trades) == ts + [HeadTrade(cur, id, left)] + tail.trades;
  }

  lemma ContinuesDone(q: seq<Order>, qty: int, taker: Side, id: nat, limit: int,
                      cur: seq<Order>, left: int, ts: seq<Trade>)
    requires Continues(q, qty, taker, id, limit, cur, left, ts)
    requires left <= 0 || cur == [] || !Crosses(taker, limit, cur[0].price)
    ensures Fill(q, taker, id, limit, qty) == Filled(cur, left, ts)
  {
    assert ts + [] == ts;
  }

  lemma FlattenDropFront(side: Side, m: LevelMap, p: int)
    requires p in m && m[p] != [] && forall k :: k in m ==> k == p || Better(side, p, k)
    ensures Flatten(side, m) != [] && Flatten(side, m[p := m[p][1..]]) == Flatten(side, m)[1..]
  {
    FlattenFront(side, m, p, m[p][1..]);
    var rest := Flatten(side, m - {p});
    assert (m[p] + rest)[1..] == m[p][1..] + rest;
  }

  lemma RemoveFirst(l: seq<Order>)
    requires l != [] && DistinctIds(l)
    ensures Remove(l, l[0].id) == l[1..]
  {
    RemoveAt(l, 0);
  }

  /** Taking the front slot of the best level out drops the front of the book. */
  lemma RemovedFront(s: Shape, side: Side, p: int)
    requires CanRemove(s, side, p, 0) && IndexOk(s) && SideFine(Removed(s, side, p, 0), side)
    requires forall k :: k in s.Qs(side) ==> k == p || Better(side, p, k)
    ensures Flat(s, side) != [] && Flat(Removed(s, side, p, 0), side) == Flat(s, side)[1..]
  {
    LevelIdsDistinct(s, side, p);
    RemoveFirst(LevelsOf(s, side)[p]);
    RemovedLevel(s, side, p, 0);
    FlattenDropFront(side, LevelsOf(s, side), p);
  }

  // ----- one matching step on the linked shape -----

  /** `px` is the first key of the side's map and its level is not empty. */
  ghost predicate AtBest(s: Shape, side: Side, px: int) {
    CanRemove(s, side, px, 0) && forall k :: k in s.Qs(side) ==> k == px || Better(side, px, k)
  }

  /** The head of level `px` trades against `qty`; used up, it is taken out. */
  ghost function HeadFilled(s: Shape, side: Side, px: int, qty: int): Shape
    requires CanRemove(s, side, px, 0)
  {
    var e := s.Qs(side)[px][0];
    ReducedSide(s, e, s.ns[e].qty - Min(qty, s.ns[e].qty), side);
    var r := Reduced(s, e, s.ns[e].qty - Min(qty, s.ns[e].qty));
    if r.ns[e].qty == 0 then Removed(r, side, px, 0) else r
  }

  lemma HeadFilledCore(s: Shape, side: Side, px: int, qty: int)
    requires Core(s) && CanRemove(s, side, px, 0)
    ensures Core(HeadFilled(s, side, px, qty))
  {
    var e := s.Qs(side)[px][0];
    var r := Reduced(s, e, s.ns[e].qty - Min(qty, s.ns[e].qty));
    ReducedCore(s, e, s.ns[e].qty - Min(qty, s.ns[e].qty));
    if r.ns[e].qty == 0 {
      ReducedSide(s, e, s.ns[e].qty - Min(qty, s.ns[e].qty), side);
      RemovedCore(r, side, px, 0);
    }
  }

  lemma HeadFilledOwn(s: Shape, side: Side, px: int, qty: int)
    requires CanRemove(s, side, px, 0) && IndexOk(s) && SideFine(s, side.Opposite())
    requires SideFine(HeadFilled(s, side, px, qty), side.Opposite())
    ensures Flat(HeadFilled(s, side, px, qty), side.Opposite()) == Flat(s, side.Opposite())
  {
    var e := s.Qs(side)[px][0];
    var v := s.ns[e].qty - Min(qty, s.ns[e].qty);
    var r := Reduced(s, e, v);
    ReducedSide(s, e, v, side);
    ReducedSide(s, e, v, side.Opposite());
    ReducedElsewhere(s, side, px, 0, v, side.Opposite());
    LevelsUntouched(s, r, side.Opposite());
    if r.ns[e].qty == 0 {
      RemovedData(r, side, px, 0);
      SameDataSameLevels(r, side.Opposite(), Removed(r, side, px, 0).ns);
      LevelsUntouched(r, Removed(r, side, px, 0), side.Opposite());
    }
  }

  lemma HeadIsLive(s: Shape, side: Side, px: int)
    requires Core(s) && CanRemove(s, side, px, 0)
    ensures var e := s.Qs(side)[px][0];
            0 <= e < |s.ns| && e !in s.free && s.ns[e].id in s.index
  {
    InQueueIsQueued(s, side, px, 0);
  }

  lemma HeadFilledFlat(s: Shape, side: Side, px: int, qty: int)
    requires Core(s) && AtBest(s, side, px) && qty > 0
    requires Core(HeadFilled(s, side, px, qty))
    ensures var q := Flat(s, side);
            && q != [] && q[0] == ToOrder(s.ns[s.Qs(side)[px][0]])
            && Flat(HeadFilled(s, side, px, qty), side) == HeadRest(q, qty)
  {
    var e := s.Qs(side)[px][0];
    var r := Reduced(s, e, s.ns[e].qty - Min(qty, s.ns[e].qty));
    ReducedFlat(s, side, px, s.ns[e].qty - Min(qty, s.ns[e].qty));
    if r.ns[e].qty == 0 {
      SidesOf(HeadFilled(s, side, px, qty), side);
      RemovedFront(r, side, px);
      assert Flat(r, side)[1..] == Flat(s, side)[1..];
    }
  }

  /** Which queues, index entries and slots a matching step touches. */
  lemma HeadFilledFrame(s: Shape, side: Side, px: int, qty: int)
    requires AtBest(s, side, px) && qty > 0
    ensures var t := HeadFilled(s, side, px, qty);
            var q := s.Qs(side)[px];
            var used := s.ns[q[0]].qty <= qty;
            && |t.ns| == |s.ns| && t.index.Keys <= s.index.Keys
            && t.Qs(side) == s.Qs(side)[px := if used then q[1..] else q]
            && t.Qs(side.Opposite()) == s.Qs(side.Opposite())
            && |t.free| == |s.free| + (if used then 1 else 0)
  {
    var e := s.Qs(side)[px][0];
    var r := Reduced(s, e, s.ns[e].qty - Min(qty, s.ns[e].qty));
    assert r.Qs(side) == s.Qs(side) && r.Qs(side.Opposite()) == s.Qs(side.Opposite());
    if r.ns[e].qty == 0 {
      ReducedSide(s, e, s.ns[e].qty - Min(qty, s.ns[e].qty), side);
      RemovedData(r, side, px, 0);
      assert Without(s.Qs(side)[px], 0) == s.Qs(side)[px][1..];
    } else {
      assert s.Qs(side)[px := s.Qs(side)[px]] == s.Qs(side);
    }
  }

  /** A matching run: the taker, what it asks for, and the book it started from. */
  datatype Task = Task(taker: Side, id: nat, limit: int, qty: int,
                       q: seq<Order>, own: seq<Order>, slots: nat, start: Shape)

  /** The book has got to where `left` is to go and the trades `ts` are done. */
  ghost predicate Progress(t: Task, s: Shape, left: int, ts: seq<Trade>)
    requires SideFine(s, t.taker) && SideFine(s, t.taker.Opposite())
  {
    && Continues(t.q, t.qty, t.taker, t.id, t.limit, Flat(s, t.taker.Opposite()), left, ts)
    && Flat(s, t.taker) == t.own
    && |s.free| + |Flat(s, t.taker.Opposite())| == t.slots
  }

  /** What matching never touches. */
  ghost predicate Untouched(t: Task, s: Shape, ts: seq<Trade>) {
    && |s.ns| == |t.start.ns| && s.index.Keys <= t.start.index.Keys
    && s.Qs(t.taker) == t.start.Qs(t.taker)
    && (ts == [] ==> s == t.start)
  }

  ghost predicate Matching(t: Task, s: Shape, left: int, ts: seq<Trade>) {
    && Core(s) && SideFine(s, t.taker) && SideFine(s, t.taker.Opposite())
    && Progress(t, s, left, ts)
    && Untouched(t, s, ts)
  }

  /** The trade at the head of level `px`. */
  function StepTrade(s: Shape, id: nat, side: Side, px: int, left: int): Trade
    requires px in s.Qs(side) && s.Qs(side)[px] != [] && 0 <= s.Qs(side)[px][0] < |s.ns|
  {
    var m := s.ns[s.Qs(side)[px][0]];
    Trade(id, m.id, px, Min(left, m.qty))
  }

  /** Everything the loops need to know about a matching step from `s` to `r`. */
  ghost predicate Stepped(s: Shape, r: Shape, own: Side, side: Side, px: int, left: int)
    requires CanRemove(s, side, px, 0) && SideFine(s, own)
  {
    var q := s.Qs(side)[px];
    && Core(r) && SideFine(r, side) && SideFine(r, own)
    && Flat(r, own) == Flat(s, own)
    && Flat(s, side) != [] && Flat(s, side)[0] == ToOrder(s.ns[q[0]]) && s.ns[q[0]].price == px
    && Flat(r, side) == HeadRest(Flat(s, side), left)
    && |r.ns| == |s.ns| && r.index.Keys <= s.index.Keys
    && r.Qs(side) == s.Qs(side)[px := if s.ns[q[0]].qty <= left then q[1..] else q]
    && r.Qs(own) == s.Qs(own)
    && |r.free| == |s.free| + (if s.ns[q[0]].qty <= left then 1 else 0)
  }

  lemma HeadFilledSteps(s: Shape, side: Side, px: int, left: int)
    requires Core(s) && SideFine(s, side.Opposite()) && AtBest(s, side, px) && left > 0
    ensures Stepped(s, HeadFilled(s, side, px, left), side.Opposite(), side, px, left)
  {
    var r := HeadFilled(s, side, px, left);
    InQueueIsQueued(s, side, px, 0);
    HeadFilledCore(s, side, px, left);
    SidesOf(r, side);
    SidesOf(r, side.Opposite());
    HeadFilledOwn(s, side, px, left);
    HeadFilledFlat(s, side, px, left);
    HeadFilledFrame(s, side, px, left);
  }

  lemma ProgressStep(t: Task, s: Shape, r: Shape, opp: Side, px: int, left: int, ts: seq<Trade>)
    requires opp == t.taker.Opposite() && SideFine(s, t.taker) && CanRemove(s, opp, px, 0)
    requires Progress(t, s, left, ts) && left > 0 && Crosses(t.taker, t.limit, px)
    requires Stepped(s, r, t.taker, opp, px, left)
    ensures var trade := StepTrade(s, t.id, opp, px, left);
            Progress(t, r, left - trade.qty, ts + [trade])
  {
    var q := Flat(s, opp);
    ContinuesStep(t.q, t.qty, t.taker, t.id, t.limit, q, left, ts);
    assert HeadTrade(q, t.id, left) == StepTrade(s, t.id, opp, px, left);
  }

  lemma MatchStep(t: Task, s: Shape, r: Shape, opp: Side, px: int, left: int, ts: seq<Trade>)
    requires opp == t.taker.Opposite()
    requires Matching(t, s, left, ts) && AtBest(s, opp, px)
    requires left > 0 && Crosses(t.taker, t.limit, px)
    requires Stepped(s, r, t.taker, opp, px, left)
    ensures var trade := StepTrade(s, t.id, opp, px, left);
            Matching(t, r, left - trade.qty, ts + [trade])
  {
    ProgressStep(t, s, r, opp, px, left, ts);
  }

  /** The level `px` as the inner loop sees it; the other levels are those of `qs`. */
  ghost predicate OnLevel(s: Shape, side: Side, px: int, qs: Queues) {
    && px in s.Qs(side) && s.Qs(side) == qs[px := s.Qs(side)[px]]
    && px in s.Lv(side) && s.Lv(side)[px].head == HeadOf(s.Qs(side)[px])
    && InSlab(s.Qs(side)[px], |s.ns|)
  }

  lemma Overwrite<T>(m: map<int, T>, k: int, a: T, b: T)
    ensures m[k := a][k := b] == m[k := b]
  {
  }

  lemma OnLevelAfter(s: Shape, r: Shape, side: Side, px: int, q: seq<int>, qs: Queues)
    requires OnLevel(s, side, px, qs)
    requires SideFine(r, side) && r.Qs(side) == s.Qs(side)[px := q]
    ensures OnLevel(r, side, px, qs)
  {
    Overwrite(qs, px, s.Qs(side)[px], q);
    LevelFine(r, side, px);
  }

  lemma EraseStep(t: Task, s: Shape, px: int, left: int, ts: seq<Trade>)
    requires Matching(t, s, left, ts) && ts != []
    requires px in s.Qs(t.taker.Opposite()) && s.Qs(t.taker.Opposite())[px] == []
    ensures Matching(t, Erased(s, t.taker.Opposite(), px), left, ts)
  {
    var opp := t.taker.Opposite();
    ErasedFlat(s, opp, px);
    SidesOf(Erased(s, opp, px), t.taker);
    SidesOf(Erased(s, opp, px), opp);
  }

  /** The whole effect of matching a taker, from the shape `s` to the shape `m`. */
  ghost predicate Matched(s: Shape, m: Shape, taker: Side, id: nat, limit: int, qty: int,
                          left: int, trades: seq<Trade>)
    requires SideFine(s, taker) && SideFine(s, taker.Opposite())
  {
    && Core(m) && SideFine(m, taker) && SideFine(m, taker.Opposite())
    && LevelsFull(m, taker.Opposite()) && m.Qs(taker) == s.Qs(taker)
    && Fill(Flat(s, taker.Opposite()), taker, id, limit, qty) == Filled(Flat(m, taker.Opposite()), left, trades)
    && Flat(m, taker) == Flat(s, taker)
    && |m.free| + |Flat(m, taker.Opposite())| == |s.free| + |Flat(s, taker.Opposite())|
    && |m.ns| == |s.ns| && m.index.Keys <= s.index.Keys
    && (trades == [] ==> m == s)
  }

  function StartTask(s: Shape, taker: Side, id: nat, limit: int, qty: int, q: seq<Order>, own: seq<Order>): Task {
    Task(taker, id, limit, qty, q, own, |s.free| + |q|, s)
  }

  lemma MatchStart(s: Shape, taker: Side, id: nat, limit: int, qty: int)
    requires Core(s) && SideFine(s, taker) && SideFine(s, taker.Opposite())
    ensures Matching(StartTask(s, taker, id, limit, qty, Flat(s, taker.Opposite()), Flat(s, taker)), s, qty, [])
  {
    var f := Fill(Flat(s, taker.Opposite()), taker, id, limit, qty);
    assert [] + f.trades == f.trades;
  }

  /** Where the outer loop looks next. */
  lemma BestLevel(t: Task, s: Shape, side: Side, left: int, ts: seq<Trade>)
    requires side == t.taker.Opposite() && Matching(t, s, left, ts) && LevelsFull(s, side)
    ensures s.Lv(side).Keys == s.Qs(side).Keys
    ensures s.Lv(side) != map[] ==> AtBest(s, side, Best(side, s.Lv(side).Keys))
  {
  }

  /** Nothing is left to match: the taker is done, the side is empty, or its best price is too far. */
  lemma MatchDone(t: Task, s: Shape, side: Side, left: int, ts: seq<Trade>)
    requires side == t.taker.Opposite() && Matching(t, s, left, ts) && LevelsFull(s, side)
    requires left <= 0 || s.Lv(side) == map[] || !Crosses(t.taker, t.limit, Best(side, s.Lv(side).Keys))
    requires SideFine(t.start, t.taker) && SideFine(t.start, side)
    requires t == StartTask(t.start, t.taker, t.id, t.limit, t.qty, Flat(t.start, side), Flat(t.start, t.taker))
    ensures Matched(t.start, s, t.taker, t.id, t.limit, t.qty, left, ts)
  {
    BestLevel(t, s, side, left, ts);
    if s.Lv(side) == map[] {
      assert LevelsOf(s, side) == map[];
    } else {
      var px := Best(side, s.Lv(side).Keys);
      BestFront(s, side, px);
      InQueueIsQueued(s, side, px, 0);
    }
    ContinuesDone(t.q, t.qty, t.taker, t.id, t.limit, Flat(s, side), left, ts);
  }

  lemma LevelKeys(s: Shape, side: Side)
    requires SideFine(s, side)
    ensures s.Lv(side).Keys == s.Qs(side).Keys
  {
  }

  /** Only the level in hand can be empty. */
  lemma FullAgain(s: Shape, side: Side, px: int, qs: Queues)
    requires OnLevel(s, side, px, qs) && forall p :: p in qs ==> qs[p] != []
    ensures s.Qs(side)[px] != [] ==> LevelsFull(s, side)
    ensures LevelsFull(Erased(s, side, px), side)
  {
  }

  lemma LevelCount(s: Shape, side: Side, px: int, qs: Queues)
    requires OnLevel(s, side, px, qs) && px in qs && SideFine(s, side)
    ensures |s.Lv(side)| == |qs| && |Erased(s, side, px).Lv(side)| == |qs| - 1
  {
    assert s.Lv(side).Keys == s.Qs(side).Keys == qs.Keys;
    assert |s.Lv(side)| == |s.Lv(side).Keys| && |qs| == |qs.Keys|;
    EraseShrinks(s.Lv(side), px);
  }

  lemma SameCount(s: Shape, side: Side)
    requires SideFine(s, side)
    ensures |s.Lv(side)| == |s.Qs(side)|
  {
    assert |s.Lv(side)| == |s.Lv(side).Keys| && |s.Qs(side)| == |s.Qs(side).Keys|;
  }

  lemma RestedFull(s: Shape, o: Order, side: Side)
    requires CanRest(s, o) && LevelsFull(s, side)
    ensures LevelsFull(Rested(s, o), side)
  {
  }

  /** The reference placement, told from what matching left on either side. */
  lemma PlaceBySides(b: Book, side: Side, price: int, qty: int, own: seq<Order>, rest: seq<Order>,
                     left: int, trades: seq<Trade>, free: nat)
    requires Fill(SideOf(b, side.Opposite()), side, b.nextId, price, qty) == Filled(rest, left, trades)
    requires free + |rest| == b.free + |SideOf(b, side.Opposite())| && own == SideOf(b, side)
    ensures var r := Place(b, side, price, qty);
            && r.id == b.nextId && r.trades == trades
            && (left <= 0 || free == 0 ==>
                  r.book == Book(Pick(side, own, rest), Pick(side, rest, own), b.nextId + 1, b.nextTs, free))
            && (left > 0 && free > 0 ==>
                  var q := Insert(side, own, Order(b.nextId, side, price, left, b.nextTs));
                  r.book == Book(Pick(side, q, rest), Pick(side, rest, q), b.nextId + 1, b.nextTs + 1, free - 1))
  {
  }

  lemma MatchedFull(s: Shape, m: Shape, ids: nat, ts: nat, side: Side, price: int, qty: int,
                    left: int, trades: seq<Trade>)
    requires Fine(s, ids, ts) && SideFine(s, side) && SideFine(s, side.Opposite())
    requires Matched(s, m, side, ids, price, qty, left, trades)
    ensures LevelsFull(m, side) && LevelsFull(m, side.Opposite()) && NoEmptyLevel(m)
  {
    assert side == Buy || side == Sell;
  }

  lemma MatchedPlace(s: Shape, m: Shape, ids: nat, ts: nat, side: Side, price: int, qty: int,
                     left: int, trades: seq<Trade>)
    requires Core(s) && SideFine(s, side) && SideFine(s, side.Opposite())
    requires Matched(s, m, side, ids, price, qty, left, trades)
    ensures var r := Place(AbsOf(s, ids, ts), side, price, qty);
            && r.id == ids && r.trades == trades
            && (left <= 0 || m.free == [] ==> r.book == AbsOf(m, ids + 1, ts))
            && (left > 0 && m.free != [] ==>
                  var q := Insert(side, Flat(m, side), Order(ids, side, price, left, ts));
                  r.book == Book(Pick(side, q, Flat(m, side.Opposite())), Pick(side, Flat(m, side.Opposite()), q),
                                 ids + 1, ts + 1, |m.free| - 1))
  {
    AbsBySide(s, ids, ts, side);
    AbsBySide(s, ids, ts, side.Opposite());
    AbsBySide(m, ids + 1, ts, side);
    PlaceBySides(AbsOf(s, ids, ts), side, price, qty, Flat(m, side), Flat(m, side.Opposite()), left, trades, |m.free|);
  }

  /** Nothing rests: the placement ends where matching left the book. */
  lemma PlaceEnds(s: Shape, m: Shape, ids: nat, ts: nat, side: Side, price: int, qty: int,
                  left: int, trades: seq<Trade>)
    requires Fine(s, ids, ts) && SideFine(s, side) && SideFine(s, side.Opposite())
    requires Matched(s, m, side, ids, price, qty, left, trades) && (left <= 0 || m.free == [])
    ensures Fine(m, ids + 1, ts)
    ensures var r := Place(AbsOf(s, ids, ts), side, price, qty);
            AbsOf(m, ids + 1, ts) == r.book && r.id == ids && r.trades == trades
    ensures trades == [] ==> left == qty && m == s
  {
    MatchedFull(s, m, ids, ts, side, price, qty, left, trades);
    MatchedPlace(s, m, ids, ts, side, price, qty, left, trades);
    PlaceKeepsInv(AbsOf(s, ids, ts), side, price, qty);
    PlaceKeepsSlots(AbsOf(s, ids, ts), side, price, qty);
  }

  lemma FineParts(s: Shape, ids: nat, ts: nat)
    requires Fine(s, ids, ts)
    ensures Core(s) && NoEmptyLevel(s) && Inv(AbsOf(s, ids, ts))
  {
  }

  /** What resting the order `o` means for the book, from the shape `m` to the shape `r`. */
  ghost predicate Inserted(m: Shape, r: Shape, o: Order)
    requires SideFine(m, o.side) && SideFine(m, o.side.Opposite())
  {
    && Core(r) && SideFine(r, o.side) && SideFine(r, o.side.Opposite())
    && Flat(r, o.side) == Insert(o.side, Flat(m, o.side), o)
    && Flat(r, o.side.Opposite()) == Flat(m, o.side.Opposite())
    && |r.ns| == |m.ns| && r.index.Keys == m.index.Keys + {o.id}
    && |r.free| == |m.free| - 1
    && (NoEmptyLevel(m) ==> NoEmptyLevel(r))
  }

  lemma RestedInserts(m: Shape, o: Order)
    requires CanRest(m, o) && SideFine(m, o.side) && SideFine(m, o.side.Opposite())
    ensures Inserted(m, Rested(m, o), o)
  {
    RestedFlat(m, o);
    RestedData(m, o);
    SidesOf(Rested(m, o), o.side);
    SidesOf(Rested(m, o), o.side.Opposite());
    if NoEmptyLevel(m) {
      RestedFull(m, o, Buy);
      RestedFull(m, o, Sell);
    }
  }

  lemma FreshIdCanRest(s: Shape, m: Shape, ids: nat, ts: nat, side: Side, price: int, qty: int,
                       left: int, trades: seq<Trade>, o: Order)
    requires Fine(s, ids, ts) && SideFine(s, side) && SideFine(s, side.Opposite())
    requires Matched(s, m, side, ids, price, qty, left, trades)
    requires m.free != [] && Distinct(m.free) && o.id == ids
    ensures CanRest(m, o) && SideFine(m, side) && SideFine(m, side.Opposite())
  {
    assert ids in m.index.Keys ==> ids in s.index.Keys;
  }

  lemma InsertedAbs(m: Shape, r: Shape, o: Order, ids: nat, ts: nat)
    requires Core(m) && SideFine(m, o.side) && SideFine(m, o.side.Opposite()) && Inserted(m, r, o)
    ensures var q := Insert(o.side, Flat(m, o.side), o);
            AbsOf(r, ids, ts) == Book(Pick(o.side, q, Flat(m, o.side.Opposite())),
                                      Pick(o.side, Flat(m, o.side.Opposite()), q), ids, ts, |m.free| - 1)
  {
    AbsBySide(r, ids, ts, o.side);
  }

  lemma PlaceRestsAbs(s: Shape, m: Shape, r: Shape, ids: nat, ts: nat, side: Side, price: int, qty: int,
                      left: int, trades: seq<Trade>)
    requires Core(s) && SideFine(s, side) && SideFine(s, side.Opposite())
    requires Matched(s, m, side, ids, price, qty, left, trades)
    requires left > 0 && m.free != [] && Inserted(m, r, Order(ids, side, price, left, ts))
    ensures var p := Place(AbsOf(s, ids, ts), side, price, qty);
            AbsOf(r, ids + 1, ts + 1) == p.book && p.id == ids && p.trades == trades
  {
    MatchedPlace(s, m, ids, ts, side, price, qty, left, trades);
    InsertedAbs(m, r, Order(ids, side, price, left, ts), ids + 1, ts + 1);
  }

  lemma InsertedIds(s: Shape, m: Shape, r: Shape, ids: nat, o: Order)
    requires SideFine(m, o.side) && SideFine(m, o.side.Opposite()) && Inserted(m, r, o) && o.id == ids
    requires m.index.Keys <= s.index.Keys && forall id :: id in s.index ==> id < ids
    ensures forall id :: id in r.index ==> id < ids + 1
  {
    hide SideFine, Flat;
    forall id | id in r.index
      ensures id < ids + 1
    {
      assert id in r.index.Keys;
      assert id == ids || id in s.index.Keys;
    }
  }

  /** The remainder rests: the placement ends with it inserted. */
  lemma PlaceRests(s: Shape, m: Shape, r: Shape, ids: nat, ts: nat, side: Side, price: int, qty: int,
                   left: int, trades: seq<Trade>)
    requires Fine(s, ids, ts) && SideFine(s, side) && SideFine(s, side.Opposite())
    requires Matched(s, m, side, ids, price, qty, left, trades)
    requires left > 0 && m.free != [] && Inserted(m, r, Order(ids, side, price, left, ts))
    ensures Fine(r, ids + 1, ts + 1)
    ensures var p := Place(AbsOf(s, ids, ts), side, price, qty);
            AbsOf(r, ids + 1, ts + 1) == p.book && p.id == ids && p.trades == trades
    ensures trades == [] ==> left == qty && m == s
  {
    hide Core, Flat, Insert, SideFine, LevelsFull, NoEmptyLevel;
    MatchedFull(s, m, ids, ts, side, price, qty, left, trades);
    PlaceRestsAbs(s, m, r, ids, ts, side, price, qty, left, trades);
    InsertedIds(s, m, r, ids, Order(ids, side, price, left, ts));
    PlaceKeepsInv(AbsOf(s, ids, ts), side, price, qty);
    PlaceKeepsSlots(AbsOf(s, ids, ts), side, price, qty);
  }

  // ----- cancelling -----

  /** Slot `k` of level `p` taken out, and the level pruned if that emptied it. */
  ghost function CancelledShape(s: Shape, side: Side, p: int, k: nat): Shape
    requires CanRemove(s, side, p, k)
  {
    var t := Removed(s, side, p, k);
    if t.Qs(side)[p] == [] then Erased(t, side, p) else t
  }

  /** What taking the order `id` off `side` means for the book. */
  ghost predicate Gone(s: Shape, r: Shape, side: Side, id: nat)
    requires SideFine(s, side) && SideFine(s, side.Opposite())
  {
    && Core(r) && SideFine(r, side) && SideFine(r, side.Opposite())
    && Flat(r, side) == Remove(Flat(s, side), id)
    && Flat(r, side.Opposite()) == Remove(Flat(s, side.Opposite()), id)
    && |r.ns| == |s.ns| && r.index.Keys == s.index.Keys - {id}
    && |r.free| == |s.free| + 1
  }

  lemma CancelledGone(s: Shape, side: Side, p: int, k: nat)
    requires Core(s) && CanRemove(s, side, p, k) && SideFine(s, side.Opposite())
    ensures Gone(s, CancelledShape(s, side, p, k), side, s.ns[s.Qs(side)[p][k]].id)
  {
    var t := Removed(s, side, p, k);
    RemovedFlat(s, side, p, k);
    SidesOf(t, side);
    SidesOf(t, side.Opposite());
    if t.Qs(side)[p] == [] {
      ErasedFlat(t, side, p);
      SidesOf(Erased(t, side, p), side);
      SidesOf(Erased(t, side, p), side.Opposite());
    }
  }

  lemma CancelledFull(s: Shape, side: Side, p: int, k: nat)
    requires CanRemove(s, side, p, k) && NoEmptyLevel(s)
    ensures NoEmptyLevel(CancelledShape(s, side, p, k))
  {
    var r := CancelledShape(s, side, p, k);
    assert LevelsFull(s, side) && LevelsFull(s, side.Opposite());
    assert LevelsFull(r, side) && LevelsFull(r, side.Opposite());
  }

  lemma SideInAll(b: Book, side: Side, id: nat)
    ensures (exists j :: 0 <= j < |SideOf(b, side)| && SideOf(b, side)[j].id == id) ==> Rests(b, id)
  {
    if j :| 0 <= j < |SideOf(b, side)| && SideOf(b, side)[j].id == id {
      assert All(b)[if side.Buy? then j else |b.bids| + j].id == id;
    }
  }

  lemma QueuedPresent(s: Shape, side: Side, p: int, k: nat)
    requires CanRemove(s, side, p, k)
    ensures var id := s.ns[s.Qs(side)[p][k]].id;
            exists j :: 0 <= j < |Flat(s, side)| && Flat(s, side)[j].id == id
  {
    var m := LevelsOf(s, side);
    FlattenPresent(side, m, p, k);
    var j :| 0 <= j < |Flatten(side, m)| && Flatten(side, m)[j] == m[p][k];
    assert Flat(s, side)[j].id == m[p][k].id;
  }

  /** An id rests in the reference book exactly if the index has it. */
  lemma IndexedIffRests(s: Shape, ids: nat, ts: nat, id: nat)
    requires Core(s)
    ensures Rests(AbsOf(s, ids, ts), id) <==> id in s.index
  {
    if id in s.index {
      var k := Located(s, id);
      var n := s.index[id];
      QueuedPresent(s, s.ns[n].side, s.ns[n].price, k);
      AbsBySide(s, ids, ts, s.ns[n].side);
      SideInAll(AbsOf(s, ids, ts), s.ns[n].side, id);
    } else {
      UnindexedAbsent(s, Buy, id);
      UnindexedAbsent(s, Sell, id);
    }
  }

  lemma UnindexedAbsent(s: Shape, side: Side, id: nat)
    requires SideFine(s, side) && IndexOk(s) && id !in s.index
    ensures forall i :: 0 <= i < |Flat(s, side)| ==> Flat(s, side)[i].id != id
  {
    forall p, i | p in LevelsOf(s, side) && 0 <= i < |LevelsOf(s, side)[p]|
      ensures LevelsOf(s, side)[p][i].id != id
    {
      InQueueIsQueued(s, side, p, i);
    }
    FlattenAbsent(side, LevelsOf(s, side), id);
  }

  lemma GoneRefines(s: Shape, r: Shape, ids: nat, ts: nat, side: Side, id: nat)
    requires Fine(s, ids, ts) && id in s.index
    requires SideFine(s, side) && SideFine(s, side.Opposite()) && Gone(s, r, side, id) && NoEmptyLevel(r)
    ensures Fine(r, ids, ts)
    ensures Rests(AbsOf(s, ids, ts), id) && AbsOf(r, ids, ts) == Cancel(AbsOf(s, ids, ts), id)
  {
    IndexedIffRests(s, ids, ts, id);
    AbsBySide(s, ids, ts, side);
    AbsBySide(r, ids, ts, side);
    CancelKeepsInv(AbsOf(s, ids, ts), id);
    CancelFreesOne(AbsOf(s, ids, ts), id);
    forall x | x in r.index
      ensures x < ids
    {
      assert x in r.index.Keys && x in s.index.Keys;
    }
  }

  /** Cancelling a resting order is the reference cancel. */
  lemma CancelRefines(s: Shape, r: Shape, ids: nat, ts: nat, id: nat, side: Side, p: int, k: nat)
    requires Fine(s, ids, ts) && CanRemove(s, side, p, k) && s.ns[s.Qs(side)[p][k]].id == id && id in s.index
    requires r == CancelledShape(s, side, p, k)
    ensures Fine(r, ids, ts)
    ensures Rests(AbsOf(s, ids, ts), id) && AbsOf(r, ids, ts) == Cancel(AbsOf(s, ids, ts), id)
  {
    SidesOf(s, side.Opposite());
    CancelledGone(s, side, p, k);
    CancelledFull(s, side, p, k);
    GoneRefines(s, r, ids, ts, side, id);
  }

  /** Where the index points, there the slot is. */
  lemma Located(s: Shape, id: nat) returns (k: nat)
    requires Core(s) && id in s.index
    ensures var n := s.index[id];
            && 0 <= n < |s.ns| && s.ns[n].id == id && n !in s.free
            && CanRemove(s, s.ns[n].side, s.ns[n].price, k)
            && s.Qs(s.ns[n].side)[s.ns[n].price][k] == n
            && s.ns[n].price in s.Lv(s.ns[n].side)
  {
    var n := s.index[id];
    assert Queued(s, n);
    SidesOf(s, s.ns[n].side);
    k :| 0 <= k < |s.Qs(s.ns[n].side)[s.ns[n].price]| && s.Qs(s.ns[n].side)[s.ns[n].price][k] == n;
  }

  lemma InsertGrows<T>(m: map<nat, T>, id: nat, v: T)
    requires id !in m
    ensures |m[id := v]| == |m| + 1
  {
    assert m[id := v].Keys == m.Keys + {id};
    assert |m| == |m.Keys| && |m[id := v]| == |m[id := v].Keys|;
  }

  lemma EmptyShape(s: Shape)
    requires s.bids == s.asks == map[] && s.bidQ == s.askQ == map[] && s.index == map[]
    requires s.free == seq(|s.ns|, i => i)
    ensures Core(s) && NoEmptyLevel(s)
    ensures Flat(s, Buy) == Flat(s, Sell) == []
  {
    forall e | 0 <= e < |s.ns|
      ensures e in s.free
    {
      assert s.free[e] == e;
    }
    assert LevelsOf(s, Buy) == map[] && LevelsOf(s, Sell) == map[];
  }

  /** A book without levels and with every slot free is the empty book. */
  lemma EmptyFine(s: Shape)
    requires s.bids == s.asks == map[] && s.bidQ == s.askQ == map[] && s.index == map[]
    requires s.free == seq(|s.ns|, i => i)
    ensures Fine(s, 1, 1) && AbsOf(s, 1, 1) == Empty(|s.ns|)
  {
    hide Core, NoEmptyLevel, Flat;
    EmptyShape(s);
  }

  // ----- placing and cancelling again -----

  /** Resting an order and taking it out again leaves no trace in any slot but its own. */
  lemma RestThenCancelNodes(ns: seq<Node>, lvl: Level, q: seq<int>, e: int, n: Node)
    requires 0 <= e < |ns| && Linked(ns[e := n], lvl, q) && e !in q
    requires lvl.tail == NULL || 0 <= lvl.tail < |ns|
    ensures var t := PushedNodes(ns[e := n], lvl, e);
            && LinksInSlab(t, e)
            && UnlinkedLevel(t, PushedLevel(lvl, e), e) == lvl
            && forall x :: 0 <= x < |ns| && x != e ==> UnlinkedNodes(t, e)[x] == ns[x]
  {
    if q != [] {
      assert LinkAt(ns[e := n], q, |q| - 1);
    }
  }

  lemma MapErase<T>(m: map<int, T>, k: int, v: T)
    requires k !in m
    ensures m[k := v] - {k} == m
  {
  }

  lemma MapSame<T>(m: map<int, T>, k: int)
    requires k in m
    ensures m[k := m[k]] == m
  {
  }

  /** The slot an order has just been put in. */
  lemma RestedSlot(s: Shape, o: Order)
    requires CanRest(s, o)
    ensures var k := |QueueOr(s.Qs(o.side), o.price)|;
            && CanRemove(Rested(s, o), o.side, o.price, k)
            && Rested(s, o).Qs(o.side)[o.price][k] == s.free[0]
            && o.id in Rested(s, o).index && Rested(s, o).index[o.id] == s.free[0]
            && 0 <= s.free[0] < |Rested(s, o).ns| && ToOrder(Rested(s, o).ns[s.free[0]]) == o
  {
    RestedSide(s, o, o.side);
    RestHere(s, o);
    RestedData(s, o);
    assert ToOrder(Rested(s, o).ns[s.free[0]]) == ToOrder(s.ns[s.free[0] := FreshNode(o)][s.free[0]]);
  }

  lemma RestThenRemove(s: Shape, o: Order)
    requires CanRest(s, o) && CanRemove(Rested(s, o), o.side, o.price, |QueueOr(s.Qs(o.side), o.price)|)
    ensures var u := Removed(Rested(s, o), o.side, o.price, |QueueOr(s.Qs(o.side), o.price)|);
            && u.index == s.index && u.free == s.free && |u.ns| == |s.ns|
            && (forall x :: 0 <= x < |s.ns| && x != s.free[0] ==> u.ns[x] == s.ns[x])
            && u.Lv(o.side) == s.Lv(o.side)[o.price := LevelOr(s.Lv(o.side), o.price)]
            && u.Qs(o.side) == s.Qs(o.side)[o.price := QueueOr(s.Qs(o.side), o.price)]
            && u.Lv(o.side.Opposite()) == s.Lv(o.side.Opposite())
            && u.Qs(o.side.Opposite()) == s.Qs(o.side.Opposite())
  {
    var e, q, lvl := s.free[0], QueueOr(s.Qs(o.side), o.price), LevelOr(s.Lv(o.side), o.price);
    RestHere(s, o);
    RestedSlot(s, o);
    RestThenCancelNodes(s.ns, lvl, q, e, FreshNode(o));
    assert Without(q + [e], |q|) == q;
    assert [e] + s.free[1..] == s.free;
    assert s.index[o.id := e] - {o.id} == s.index;
    Overwrite(s.Lv(o.side), o.price, PushedLevel(lvl, e), lvl);
    Overwrite(s.Qs(o.side), o.price, q + [e], q);
  }

  /** Resting and cancelling restores maps, queues, index and free list, and every other slot. */
  lemma RestThenCancelRestores(s: Shape, o: Order)
    requires CanRest(s, o) && LevelsFull(s, o.side)
    ensures CanRemove(Rested(s, o), o.side, o.price, |QueueOr(s.Qs(o.side), o.price)|)
    ensures var u := CancelledShape(Rested(s, o), o.side, o.price, |QueueOr(s.Qs(o.side), o.price)|);
            && u == s.(ns := u.ns) && |u.ns| == |s.ns|
            && forall x :: 0 <= x < |s.ns| && x != s.free[0] ==> u.ns[x] == s.ns[x]
  {
    RestedSlot(s, o);
    RestThenRemove(s, o);
    SidesOf(s, o.side);
    if o.price in s.Qs(o.side) {
      MapSame(s.Lv(o.side), o.price);
      MapSame(s.Qs(o.side), o.price);
    } else {
      MapErase(s.Lv(o.side), o.price, EMPTY_LEVEL);
      MapErase(s.Qs(o.side), o.price, []);
    }
  }

  /** The same, from what placing and cancelling report of themselves. */
  lemma RestThenCancel(s: Shape, t: Shape, u: Shape, o: Order, k: nat)
    requires CanRest(s, o) && NoEmptyLevel(s) && t == Rested(s, o)
    requires CanRemove(t, o.side, o.price, k) && t.Qs(o.side)[o.price][k] == s.free[0]
    requires u == CancelledShape(t, o.side, o.price, k)
    ensures u == s.(ns := u.ns) && |u.ns| == |s.ns|
    ensures forall x :: 0 <= x < |s.ns| && x != s.free[0] ==> u.ns[x] == s.ns[x]
  {
    RestedSlot(s, o);
    LevelFine(t, o.side, o.price);
    assert k == |QueueOr(s.Qs(o.side), o.price)|;
    RestThenCancelRestores(s, o);
  }

  // ----- queries -----

  /** The first key of a side's map is the price at the front of the book. */
  lemma BestKeyIsFront(s: Shape, ids: nat, ts: nat, side: Side)
    requires Fine(s, ids, ts)
    ensures s.Lv(side) == map[] <==> SideOf(AbsOf(s, ids, ts), side) == []
    ensures s.Lv(side) != map[] ==> SideOf(AbsOf(s, ids, ts), side)[0].price == Best(side, s.Lv(side).Keys)
  {
    AbsBySide(s, ids, ts, side);
    LevelKeys(s, side);
    if s.Lv(side) == map[] {
      assert LevelsOf(s, side) == map[];
    } else {
      var px := Best(side, s.Lv(side).Keys);
      assert LevelsFull(s, side);
      BestFront(s, side, px);
      InQueueIsQueued(s, side, px, 0);
    }
  }

  /** Walking a level from `k` on: what is still to be added. */
  ghost function Tail(s: Shape, q: seq<int>, k: nat): int
    requires k <= |q| && InSlab(q, |s.ns|)
  {
    SumQty(OrdersOf(s.ns, q)[k..])
  }

  lemma TailStep(s: Shape, q: seq<int>, k: nat)
    requires k < |q| && InSlab(q, |s.ns|)
    ensures Tail(s, q, k) == s.ns[q[k]].qty + Tail(s, q, k + 1)
  {
    var l := OrdersOf(s.ns, q);
    assert l[k..][1..] == l[k + 1..];
  }

  lemma QtyAtIsLevelSum(s: Shape, ids: nat, ts: nat, side: Side, price: int)
    requires Core(s) && SideFine(s, side)
    ensures QtyAt(SideOf(AbsOf(s, ids, ts), side), price)
            == if price in s.Qs(side) then Tail(s, s.Qs(side)[price], 0) else 0
  {
    AbsBySide(s, ids, ts, side);
    LevelsPriced(s, side);
    FlattenQtyAt(side, LevelsOf(s, side), price);
    if price in s.Qs(side) {
      var l := OrdersOf(s.ns, s.Qs(side)[price]);
      assert l[0..] == l;
    }
  }
}
