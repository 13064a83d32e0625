/**
  The three edits the book makes to its linked representation (take a slot out, rest an order in a
  free slot, reduce a quantity) keep lists, index and free slots consistent, and what each does to
  the levels it stands for.
 */
module BookEdits {
  import opened Orders
  import opened PriorityBook
  import opened BookInvariant
  import opened ObjectPools
  import opened Levels
  import opened BookShape

  ghost predicate SideFine(s: Shape, side: Side) {
    SideOk(s.ns, side, s.Lv(side), s.Qs(side))
  }

  lemma SidesOf(s: Shape, side: Side)
    requires Core(s)
    ensures SideFine(s, side)
  {
  }

  lemma LevelFine(s: Shape, side: Side, p: int)
    requires SideFine(s, side) && p in s.Qs(side)
    ensures Linked(s.ns, s.Lv(side)[p], s.Qs(side)[p]) && Tagged(s.ns, side, p, s.Qs(side)[p])
    ensures Distinct(s.Qs(side)[p])
  {
    assert LevelOk(s.ns, side, p, s.Lv(side)[p], s.Qs(side)[p]);
    LinkedDistinct(s.ns, s.Lv(side)[p], s.Qs(side)[p]);
  }

  /** Lists of different levels share no slot, because every slot names its own level. */
  lemma QueuesDisjoint(s: Shape, side: Side, p: int, side2: Side, p2: int)
    requires SideFine(s, side) && SideFine(s, side2)
    requires p in s.Qs(side) && p2 in s.Qs(side2) && (side != side2 || p != p2)
    ensures forall i, j :: 0 <= i < |s.Qs(side)[p]| && 0 <= j < |s.Qs(side2)[p2]| ==>
              s.Qs(side)[p][i] != s.Qs(side2)[p2][j]
  {
    LevelFine(s, side, p);
    LevelFine(s, side2, p2);
  }

  lemma InQueueIsQueued(s: Shape, side: Side, p: int, i: nat)
    requires SideFine(s, side) && p in s.Qs(side) && i < |s.Qs(side)[p]|
    ensures Queued(s, s.Qs(side)[p][i])
    ensures s.ns[s.Qs(side)[p][i]].side == side && s.ns[s.Qs(side)[p][i]].price == p
  {
    LevelFine(s, side, p);
  }

  /** The shape with level `p` of `side`, the nodes, the index and the free slots replaced. */
  function Edited(s: Shape, side: Side, p: int, lvl: Level, q: seq<int>,
                  ns: seq<Node>, index: map<nat, int>, free: seq<int>): (t: Shape)
    ensures t.ns == ns && t.index == index && t.free == free
    ensures t.Lv(side) == s.Lv(side)[p := lvl] && t.Qs(side) == s.Qs(side)[p := q]
    ensures t.Lv(side.Opposite()) == s.Lv(side.Opposite()) && t.Qs(side.Opposite()) == s.Qs(side.Opposite())
  {
    if side.Buy? then
      s.(ns := ns, index := index, free := free, bids := s.bids[p := lvl], bidQ := s.bidQ[p := q])
    else
      s.(ns := ns, index := index, free := free, asks := s.asks[p := lvl], askQ := s.askQ[p := q])
  }

  // ----- taking a slot out -----

  ghost predicate CanRemove(s: Shape, side: Side, p: int, k: nat) {
    SideFine(s, side) && p in s.Qs(side) && k < |s.Qs(side)[p]|
  }

  ghost function Removed(s: Shape, side: Side, p: int, k: nat): Shape
    requires CanRemove(s, side, p, k)
  {
    var q := s.Qs(side)[p];
    LevelFine(s, side, p);
    UnlinkLinks(s.ns, s.Lv(side)[p], q, k);
    Edited(s, side, p, UnlinkedLevel(s.ns, s.Lv(side)[p], q[k]), Without(q, k),
           UnlinkedNodes(s.ns, q[k]), s.index - {s.ns[q[k]].id}, [q[k]] + s.free)
  }

  lemma RemovedData(s: Shape, side: Side, p: int, k: nat)
    requires CanRemove(s, side, p, k)
    ensures SameData(s.ns, Removed(s, side, p, k).ns)
  {
    LevelFine(s, side, p);
    UnlinkLinks(s.ns, s.Lv(side)[p], s.Qs(side)[p], k);
    UnlinkSameData(s.ns, s.Qs(side)[p][k]);
  }

  lemma SameDataSameTags(ns: seq<Node>, ns': seq<Node>, side: Side, p: int, q: seq<int>)
    requires SameData(ns, ns') && InSlab(q, |ns|)
    ensures Tagged(ns', side, p, q) <==> Tagged(ns, side, p, q)
  {
    forall i | 0 <= i < |q|
      ensures ToOrder(ns'[q[i]]) == ToOrder(ns[q[i]])
    {
    }
  }

  lemma RemovedHere(s: Shape, side: Side, p: int, k: nat)
    requires CanRemove(s, side, p, k)
    ensures var t := Removed(s, side, p, k);
            Linked(t.ns, t.Lv(side)[p], t.Qs(side)[p]) && Tagged(t.ns, side, p, t.Qs(side)[p])
  {
    var t := Removed(s, side, p, k);
    var q := s.Qs(side)[p];
    LevelFine(s, side, p);
    UnlinkLinks(s.ns, s.Lv(side)[p], q, k);
    UnlinkList(s.ns, s.Lv(side)[p], q, k);
    RemovedData(s, side, p, k);
    SameDataSameTags(s.ns, t.ns, side, p, Without(q, k));
  }

  lemma RemovedOther(s: Shape, side: Side, p: int, k: nat, side2: Side, p2: int)
    requires CanRemove(s, side, p, k) && SideFine(s, side2)
    requires p2 in s.Qs(side2) && (side != side2 || p != p2)
    ensures var ns' := Removed(s, side, p, k).ns;
            Linked(ns', s.Lv(side2)[p2], s.Qs(side2)[p2]) && Tagged(ns', side2, p2, s.Qs(side2)[p2])
  {
    var q := s.Qs(side)[p];
    LevelFine(s, side, p);
    UnlinkLinks(s.ns, s.Lv(side)[p], q, k);
    LevelFine(s, side2, p2);
    QueuesDisjoint(s, side, p, side2, p2);
    UnlinkElsewhere(s.ns, s.Lv(side)[p], q, k, s.Lv(side2)[p2], s.Qs(side2)[p2]);
    RemovedData(s, side, p, k);
    SameDataSameTags(s.ns, Removed(s, side, p, k).ns, side2, p2, s.Qs(side2)[p2]);
  }

  /** A side is fine if its edited level is and the others are under the new nodes. */
  lemma SideAfterEdit(s: Shape, t: Shape, side: Side, p: int, side2: Side)
    requires SideFine(s, side2) && p in t.Lv(side) && p in t.Qs(side)
    requires side2 == side ==>
               t.Lv(side) == s.Lv(side)[p := t.Lv(side)[p]] && t.Qs(side) == s.Qs(side)[p := t.Qs(side)[p]]
    requires side2 != side ==> t.Lv(side2) == s.Lv(side2) && t.Qs(side2) == s.Qs(side2)
    requires LevelOk(t.ns, side, p, t.Lv(side)[p], t.Qs(side)[p])
    requires forall p2 :: p2 in s.Qs(side2) && (side != side2 || p != p2) ==>
               LevelOk(t.ns, side2, p2, s.Lv(side2)[p2], s.Qs(side2)[p2])
    ensures SideFine(t, side2)
  {
    forall p2 | p2 in t.Qs(side2)
      ensures LevelOk(t.ns, side2, p2, t.Lv(side2)[p2], t.Qs(side2)[p2])
    {
    }
  }

  lemma RemovedSide(s: Shape, side: Side, p: int, k: nat, side2: Side)
    requires CanRemove(s, side, p, k) && SideFine(s, side2)
    ensures SideFine(Removed(s, side, p, k), side2)
  {
    RemovedHere(s, side, p, k);
    forall p2 | p2 in s.Qs(side2) && (side != side2 || p != p2)
      ensures LevelOk(Removed(s, side, p, k).ns, side2, p2, s.Lv(side2)[p2], s.Qs(side2)[p2])
    {
      RemovedOther(s, side, p, k, side2, p2);
    }
    SideAfterEdit(s, Removed(s, side, p, k), side, p, side2);
  }

  lemma RemovedQueued(s: Shape, side: Side, p: int, k: nat, e: int)
    requires CanRemove(s, side, p, k)
    ensures Queued(Removed(s, side, p, k), e) <==> Queued(s, e) && e != s.Qs(side)[p][k]
    ensures 0 <= e < |s.ns| ==> Removed(s, side, p, k).ns[e].id == s.ns[e].id
  {
    var t := Removed(s, side, p, k);
    RemovedData(s, side, p, k);
    InQueueIsQueued(s, side, p, k);
    if 0 <= e < |s.ns| {
      assert ToOrder(t.ns[e]) == ToOrder(s.ns[e]);
      LevelFine(s, side, p);
      WithoutDistinct(s.Qs(side)[p], k);
      assert s.ns[e].side == side || s.ns[e].side == side.Opposite();
    }
  }

  /** Index and partition follow from which slots are queued. */
  lemma IndexAfterRemoval(s: Shape, t: Shape, e: int)
    requires IndexOk(s) && Partitioned(s) && Queued(s, e)
    requires |t.ns| == |s.ns| && t.index == s.index - {s.ns[e].id} && t.free == [e] + s.free
    requires forall x :: Queued(t, x) <==> Queued(s, x) && x != e
    requires forall x :: 0 <= x < |s.ns| ==> t.ns[x].id == s.ns[x].id
    ensures IndexOk(t) && Partitioned(t)
  {
    assert forall x :: x in t.free <==> x == e || x in s.free;
  }

  lemma RemovedIndex(s: Shape, side: Side, p: int, k: nat)
    requires CanRemove(s, side, p, k) && IndexOk(s) && Partitioned(s)
    ensures IndexOk(Removed(s, side, p, k)) && Partitioned(Removed(s, side, p, k))
  {
    var t := Removed(s, side, p, k);
    var e := s.Qs(side)[p][k];
    InQueueIsQueued(s, side, p, k);
    RemovedData(s, side, p, k);
    forall x: int
      ensures Queued(t, x) <==> Queued(s, x) && x != e
      ensures 0 <= x < |s.ns| ==> t.ns[x].id == s.ns[x].id
    {
      RemovedQueued(s, side, p, k, x);
    }
    IndexAfterRemoval(s, t, e);
  }

  lemma RemovedCore(s: Shape, side: Side, p: int, k: nat)
    requires Core(s) && CanRemove(s, side, p, k)
    ensures Core(Removed(s, side, p, k))
  {
    SidesOf(s, Buy);
    SidesOf(s, Sell);
    RemovedSide(s, side, p, k, Buy);
    RemovedSide(s, side, p, k, Sell);
    RemovedIndex(s, side, p, k);
  }

  /** Orders in a level have pairwise distinct ids, because the index is a function. */
  lemma LevelIdsDistinct(s: Shape, side: Side, p: int)
    requires SideFine(s, side) && IndexOk(s) && p in s.Qs(side)
    ensures DistinctIds(OrdersOf(s.ns, s.Qs(side)[p]))
  {
    var q := s.Qs(side)[p];
    LevelFine(s, side, p);
    forall i, j | 0 <= i < j < |q|
      ensures s.ns[q[i]].id != s.ns[q[j]].id
    {
      InQueueIsQueued(s, side, p, i);
      InQueueIsQueued(s, side, p, j);
    }
  }

  /** An id lives in one level only. */
  lemma IdElsewhere(s: Shape, side: Side, p: int, k: nat, side2: Side, p2: int)
    requires CanRemove(s, side, p, k) && SideFine(s, side2) && IndexOk(s)
    requires p2 in s.Qs(side2) && (side != side2 || p != p2)
    ensures forall i :: 0 <= i < |s.Qs(side2)[p2]| ==> s.ns[s.Qs(side2)[p2][i]].id != s.ns[s.Qs(side)[p][k]].id
  {
    QueuesDisjoint(s, side, p, side2, p2);
    InQueueIsQueued(s, side, p, k);
    forall i | 0 <= i < |s.Qs(side2)[p2]|
      ensures s.ns[s.Qs(side2)[p2][i]].id != s.ns[s.Qs(side)[p][k]].id
    {
      InQueueIsQueued(s, side2, p2, i);
    }
  }

  lemma SameDataSameOrders(ns: seq<Node>, ns': seq<Node>, q: seq<int>)
    requires SameData(ns, ns') && InSlab(q, |ns|)
    ensures OrdersOf(ns', q) == OrdersOf(ns, q)
  {
  }

  lemma OrdersWithout(ns: seq<Node>, q: seq<int>, k: nat)
    requires InSlab(q, |ns|) && k < |q| && DistinctIds(OrdersOf(ns, q))
    ensures InSlab(Without(q, k), |ns|)
    ensures OrdersOf(ns, Without(q, k)) == Remove(OrdersOf(ns, q), ns[q[k]].id)
  {
    RemoveAt(OrdersOf(ns, q), k);
  }

  /** The levels after an edit that keeps the data of all queued slots. */
  lemma LevelsAfterEdit(s: Shape, t: Shape, side: Side, p: int, l: seq<Order>)
    requires SideFine(s, side) && SideFine(t, side) && |t.ns| == |s.ns|
    requires p in t.Qs(side) && t.Qs(side) == s.Qs(side)[p := t.Qs(side)[p]]
    requires OrdersOf(t.ns, t.Qs(side)[p]) == l
    requires forall p2 :: p2 in s.Qs(side) && p2 != p ==>
               OrdersOf(t.ns, s.Qs(side)[p2]) == OrdersOf(s.ns, s.Qs(side)[p2])
    ensures LevelsOf(t, side) == LevelsOf(s, side)[p := l]
  {
  }

  lemma LevelsUntouched(s: Shape, t: Shape, side: Side)
    requires SideFine(s, side) && SideFine(t, side) && |t.ns| == |s.ns|
    requires t.Qs(side) == s.Qs(side)
    requires forall p2 :: p2 in s.Qs(side) ==> OrdersOf(t.ns, s.Qs(side)[p2]) == OrdersOf(s.ns, s.Qs(side)[p2])
    ensures LevelsOf(t, side) == LevelsOf(s, side)
  {
    forall p2 | p2 in s.Qs(side)
      ensures LevelsOf(t, side)[p2] == LevelsOf(s, side)[p2]
    {
      assert OrdersOf(t.ns, s.Qs(side)[p2]) == OrdersOf(s.ns, s.Qs(side)[p2]);
    }
  }

  lemma SameDataSameLevels(s: Shape, side: Side, ns': seq<Node>)
    requires SideFine(s, side) && SameData(s.ns, ns')
    ensures forall p2 :: p2 in s.Qs(side) ==> OrdersOf(ns', s.Qs(side)[p2]) == OrdersOf(s.ns, s.Qs(side)[p2])
  {
    forall p2 | p2 in s.Qs(side)
      ensures OrdersOf(ns', s.Qs(side)[p2]) == OrdersOf(s.ns, s.Qs(side)[p2])
    {
      SameDataSameOrders(s.ns, ns', s.Qs(side)[p2]);
    }
  }

  lemma RemovedLevel(s: Shape, side: Side, p: int, k: nat)
    requires CanRemove(s, side, p, k) && IndexOk(s)
    requires SideFine(Removed(s, side, p, k), side)
    ensures LevelsOf(Removed(s, side, p, k), side)
            == LevelsOf(s, side)[p := Remove(LevelsOf(s, side)[p], s.ns[s.Qs(side)[p][k]].id)]
  {
    var t := Removed(s, side, p, k);
    RemovedData(s, side, p, k);
    LevelIdsDistinct(s, side, p);
    OrdersWithout(s.ns, s.Qs(side)[p], k);
    SameDataSameOrders(s.ns, t.ns, Without(s.Qs(side)[p], k));
    SameDataSameLevels(s, side, t.ns);
    LevelsAfterEdit(s, t, side, p, Remove(LevelsOf(s, side)[p], s.ns[s.Qs(side)[p][k]].id));
  }

  lemma IdNotElsewhere(s: Shape, side: Side, p: int, k: nat, side2: Side)
    requires CanRemove(s, side, p, k) && SideFine(s, side2) && IndexOk(s)
    ensures forall p2, i :: p2 in LevelsOf(s, side2) && (side2 != side || p2 != p)
                            && 0 <= i < |LevelsOf(s, side2)[p2]| ==>
              LevelsOf(s, side2)[p2][i].id != s.ns[s.Qs(side)[p][k]].id
  {
    forall p2, i | p2 in LevelsOf(s, side2) && (side2 != side || p2 != p) && 0 <= i < |LevelsOf(s, side2)[p2]|
      ensures LevelsOf(s, side2)[p2][i].id != s.ns[s.Qs(side)[p][k]].id
    {
      IdElsewhere(s, side, p, k, side2, p2);
    }
  }

  lemma RemovedSameSide(s: Shape, side: Side, p: int, k: nat)
    requires CanRemove(s, side, p, k) && IndexOk(s)
    ensures SideFine(Removed(s, side, p, k), side)
    ensures Flat(Removed(s, side, p, k), side) == Remove(Flat(s, side), s.ns[s.Qs(side)[p][k]].id)
  {
    RemovedSide(s, side, p, k, side);
    RemovedLevel(s, side, p, k);
    IdNotElsewhere(s, side, p, k, side);
    FlattenRemove(side, LevelsOf(s, side), p, s.ns[s.Qs(side)[p][k]].id);
  }

  lemma RemovedOtherSide(s: Shape, side: Side, p: int, k: nat)
    requires CanRemove(s, side, p, k) && IndexOk(s) && SideFine(s, side.Opposite())
    ensures SideFine(Removed(s, side, p, k), side.Opposite())
    ensures Flat(Removed(s, side, p, k), side.Opposite()) == Flat(s, side.Opposite())
            == Remove(Flat(s, side.Opposite()), s.ns[s.Qs(side)[p][k]].id)
  {
    var opp := side.Opposite();
    RemovedSide(s, side, p, k, opp);
    RemovedData(s, side, p, k);
    SameDataSameLevels(s, opp, Removed(s, side, p, k).ns);
    LevelsUntouched(s, Removed(s, side, p, k), opp);
    IdNotElsewhere(s, side, p, k, opp);
    FlattenAbsent(opp, LevelsOf(s, opp), s.ns[s.Qs(side)[p][k]].id);
    RemoveAbsent(Flat(s, opp), s.ns[s.Qs(side)[p][k]].id);
  }

  /** Taking slot `k` of level `p` out removes its order, and nothing else, from the book. */
  lemma RemovedFlat(s: Shape, side: Side, p: int, k: nat)
    requires Core(s) && CanRemove(s, side, p, k)
    ensures var t := Removed(s, side, p, k);
            var id := s.ns[s.Qs(side)[p][k]].id;
            && Core(t)
            && Flat(t, side) == Remove(Flat(s, side), id)
            && Flat(t, side.Opposite()) == Flat(s, side.Opposite()) == Remove(Flat(s, side.Opposite()), id)
  {
    SidesOf(s, side.Opposite());
    RemovedCore(s, side, p, k);
    RemovedSameSide(s, side, p, k);
    RemovedOtherSide(s, side, p, k);
  }

  // ----- erasing an empty level -----

  ghost function Erased(s: Shape, side: Side, p: int): Shape {
    s.WithSide(side, s.Lv(side) - {p}, s.Qs(side) - {p})
  }

  lemma ErasedQueued(s: Shape, side: Side, p: int, e: int)
    requires p in s.Qs(side) && s.Qs(side)[p] == []
    ensures Queued(Erased(s, side, p), e) <==> Queued(s, e)
  {
  }

  lemma SameQueuedSameIndex(s: Shape, t: Shape)
    requires IndexOk(s) && Partitioned(s)
    requires |t.ns| == |s.ns| && t.index == s.index && t.free == s.free
    requires forall e :: Queued(t, e) <==> Queued(s, e)
    requires forall e :: 0 <= e < |s.ns| ==> t.ns[e].id == s.ns[e].id
    ensures IndexOk(t) && Partitioned(t)
  {
  }

  lemma ErasedCore(s: Shape, side: Side, p: int)
    requires Core(s) && p in s.Qs(side) && s.Qs(side)[p] == []
    ensures Core(Erased(s, side, p))
  {
    var t := Erased(s, side, p);
    forall e: int
      ensures Queued(t, e) <==> Queued(s, e)
    {
      ErasedQueued(s, side, p, e);
    }
    SameQueuedSameIndex(s, t);
    SidesOf(s, Buy);
    SidesOf(s, Sell);
    ErasedSide(s, side, p, Buy);
    ErasedSide(s, side, p, Sell);
  }

  lemma ErasedSide(s: Shape, side: Side, p: int, side2: Side)
    requires SideFine(s, side2)
    ensures SideFine(Erased(s, side, p), side2)
  {
    var t := Erased(s, side, p);
    forall p2 | p2 in t.Qs(side2)
      ensures LevelOk(t.ns, side2, p2, t.Lv(side2)[p2], t.Qs(side2)[p2])
    {
      LevelFine(s, side2, p2);
    }
  }

  lemma ErasedLevels(s: Shape, side: Side, p: int)
    requires SideFine(s, side) && SideFine(Erased(s, side, p), side)
    ensures LevelsOf(Erased(s, side, p), side) == LevelsOf(s, side) - {p}
  {
  }

  lemma ErasedFlat(s: Shape, side: Side, p: int)
    requires Core(s) && p in s.Qs(side) && s.Qs(side)[p] == []
    ensures var t := Erased(s, side, p);
            && Core(t)
            && Flat(t, side) == Flat(s, side)
            && Flat(t, side.Opposite()) == Flat(s, side.Opposite())
  {
    ErasedCore(s, side, p);
    SidesOf(s, side);
    ErasedLevels(s, side, p);
    FlattenDropEmpty(side, LevelsOf(s, side), p);
  }

  // ----- resting an order -----

  function FreshNode(o: Order): Node {
    Node(o.id, o.side, o.price, o.qty, o.ts, NULL, NULL)
  }

  function LevelOr(lv: map<int, Level>, p: int): Level {
    if p in lv then lv[p] else EMPTY_LEVEL
  }

  function QueueOr(qs: Queues, p: int): seq<int> {
    if p in qs then qs[p] else []
  }

  ghost predicate CanRest(s: Shape, o: Order) {
    && Core(s) && Distinct(s.free) && s.free != [] && o.id !in s.index
  }

  lemma RestHere(s: Shape, o: Order)
    requires CanRest(s, o)
    ensures var e := s.free[0];
            var lvl := LevelOr(s.Lv(o.side), o.price);
            var q := QueueOr(s.Qs(o.side), o.price);
            && 0 <= e < |s.ns| && !Queued(s, e)
            && Linked(s.ns[e := FreshNode(o)], lvl, q) && e !in q
            && (lvl.tail == NULL || 0 <= lvl.tail < |s.ns|)
  {
    var e := s.free[0];
    assert e in s.free;
    SidesOf(s, o.side);
    var q := QueueOr(s.Qs(o.side), o.price);
    if o.price in s.Qs(o.side) {
      LevelFine(s, o.side, o.price);
      NotQueuedNotIn(s, o.side, o.price, e);
    }
    FreshElsewhere(s.ns, LevelOr(s.Lv(o.side), o.price), q, e, FreshNode(o));
    PushList(s.ns[e := FreshNode(o)], LevelOr(s.Lv(o.side), o.price), q, e);
  }

  lemma FreshElsewhere(ns: seq<Node>, lvl: Level, q: seq<int>, e: int, n: Node)
    requires Linked(ns, lvl, q) && 0 <= e < |ns| && e !in q
    ensures Linked(ns[e := n], lvl, q)
  {
    var ns' := ns[e := n];
    forall i | 0 <= i < |q|
      ensures LinkAt(ns', q, i)
    {
      assert LinkAt(ns, q, i);
    }
  }

  predicate FitsIn(s: Shape, o: Order) {
    var tail := LevelOr(s.Lv(o.side), o.price).tail;
    s.free != [] && 0 <= s.free[0] < |s.ns| && (tail == NULL || 0 <= tail < |s.ns|)
  }

  /** The order written into the first free slot and pushed to the back of its level. */
  function LinkedIn(s: Shape, o: Order): Shape
    requires FitsIn(s, o)
  {
    var e := s.free[0];
    var lvl := LevelOr(s.Lv(o.side), o.price);
    Edited(s, o.side, o.price, PushedLevel(lvl, e), QueueOr(s.Qs(o.side), o.price) + [e],
           PushedNodes(s.ns[e := FreshNode(o)], lvl, e), s.index[o.id := e], s.free[1..])
  }

  ghost function Rested(s: Shape, o: Order): Shape
    requires CanRest(s, o)
  {
    RestHere(s, o);
    LinkedIn(s, o)
  }

  lemma RestedData(s: Shape, o: Order)
    requires CanRest(s, o)
    ensures SameData(s.ns[s.free[0] := FreshNode(o)], Rested(s, o).ns)
  {
    RestHere(s, o);
    PushList(s.ns[s.free[0] := FreshNode(o)], LevelOr(s.Lv(o.side), o.price),
             QueueOr(s.Qs(o.side), o.price), s.free[0]);
  }

  lemma RestedLinked(s: Shape, o: Order)
    requires CanRest(s, o)
    ensures var t := Rested(s, o);
            Linked(t.ns, t.Lv(o.side)[o.price], t.Qs(o.side)[o.price])
  {
    RestHere(s, o);
    PushList(s.ns[s.free[0] := FreshNode(o)], LevelOr(s.Lv(o.side), o.price),
             QueueOr(s.Qs(o.side), o.price), s.free[0]);
  }

  lemma RestedSide(s: Shape, o: Order, side2: Side)
    requires CanRest(s, o)
    ensures SideFine(Rested(s, o), side2)
  {
    SidesOf(s, o.side);
    SidesOf(s, side2);
    RestedLinked(s, o);
    RestedTag(s, o);
    forall p2 | p2 in s.Qs(side2) && !(side2 == o.side && p2 == o.price)
      ensures LevelOk(Rested(s, o).ns, side2, p2, s.Lv(side2)[p2], s.Qs(side2)[p2])
    {
      RestedOther(s, o, side2, p2);
    }
    SideAfterEdit(s, Rested(s, o), o.side, o.price, side2);
  }

  lemma RestedTag(s: Shape, o: Order)
    requires CanRest(s, o)
    ensures var t := Rested(s, o);
            var q := t.Qs(o.side)[o.price];
            InSlab(q, |t.ns|) && Tagged(t.ns, o.side, o.price, q)
  {
    RestHere(s, o);
    RestedData(s, o);
    SidesOf(s, o.side);
    var t, e := Rested(s, o), s.free[0];
    var ns0, q := s.ns[e := FreshNode(o)], QueueOr(s.Qs(o.side), o.price);
    if o.price in s.Qs(o.side) {
      LevelFine(s, o.side, o.price);
    }
    var r := q + [e];
    forall i | 0 <= i < |r|
      ensures 0 <= r[i] < |t.ns| && t.ns[r[i]].side == o.side && t.ns[r[i]].price == o.price
    {
      assert ToOrder(t.ns[r[i]]) == ToOrder(ns0[r[i]]);
    }
  }

  lemma NotQueuedNotIn(s: Shape, side: Side, p: int, e: int)
    requires SideFine(s, side) && p in s.Qs(side) && !Queued(s, e)
    ensures e !in s.Qs(side)[p]
  {
    if i :| 0 <= i < |s.Qs(side)[p]| && s.Qs(side)[p][i] == e {
      InQueueIsQueued(s, side, p, i);
    }
  }

  lemma FillAndPushElsewhere(ns: seq<Node>, n: Node, lvl: Level, q: seq<int>, e: int, lvl2: Level, q2: seq<int>,
                             side2: Side, p2: int)
    requires 0 <= e < |ns| && e !in q2 && Linked(ns[e := n], lvl, q)
    requires lvl.tail == NULL || 0 <= lvl.tail < |ns|
    requires Linked(ns, lvl2, q2) && Tagged(ns, side2, p2, q2)
    requires forall i, j :: 0 <= i < |q| && 0 <= j < |q2| ==> q[i] != q2[j]
    ensures Linked(PushedNodes(ns[e := n], lvl, e), lvl2, q2)
    ensures Tagged(PushedNodes(ns[e := n], lvl, e), side2, p2, q2)
  {
    FreshElsewhere(ns, lvl2, q2, e, n);
    PushElsewhere(ns[e := n], lvl, q, e, lvl2, q2);
  }

  lemma RestedOther(s: Shape, o: Order, side2: Side, p2: int)
    requires CanRest(s, o) && SideFine(s, o.side) && SideFine(s, side2)
    requires p2 in s.Qs(side2) && !(side2 == o.side && p2 == o.price)
    ensures var ns' := Rested(s, o).ns;
            Linked(ns', s.Lv(side2)[p2], s.Qs(side2)[p2]) && Tagged(ns', side2, p2, s.Qs(side2)[p2])
  {
    RestHere(s, o);
    LevelFine(s, side2, p2);
    NotQueuedNotIn(s, side2, p2, s.free[0]);
    if o.price in s.Qs(o.side) {
      QueuesDisjoint(s, o.side, o.price, side2, p2);
    }
    FillAndPushElsewhere(s.ns, FreshNode(o), LevelOr(s.Lv(o.side), o.price), QueueOr(s.Qs(o.side), o.price),
                         s.free[0], s.Lv(side2)[p2], s.Qs(side2)[p2], side2, p2);
  }

  lemma QueuedAfterPush(s: Shape, t: Shape, o: Order, e: int, x: int)
    requires 0 <= e < |s.ns| == |t.ns| && !Queued(s, e)
    requires t.Qs(o.side) == s.Qs(o.side)[o.price := QueueOr(s.Qs(o.side), o.price) + [e]]
    requires t.Qs(o.side.Opposite()) == s.Qs(o.side.Opposite())
    requires 0 <= x < |s.ns| ==> ToOrder(t.ns[x]) == if x == e then o else ToOrder(s.ns[x])
    ensures Queued(t, x) <==> Queued(s, x) || x == e
  {
    if 0 <= x < |s.ns| {
      var q := QueueOr(s.Qs(o.side), o.price);
      assert x in q + [e] <==> x in q || x == e;
      assert s.ns[x].side == o.side || s.ns[x].side == o.side.Opposite();
    }
  }

  lemma RestedQueued(s: Shape, o: Order, x: int)
    requires CanRest(s, o)
    ensures Queued(Rested(s, o), x) <==> Queued(s, x) || x == s.free[0]
  {
    RestHere(s, o);
    RestedData(s, o);
    var t, e := Rested(s, o), s.free[0];
    if 0 <= x < |s.ns| {
      assert ToOrder(t.ns[x]) == ToOrder(s.ns[e := FreshNode(o)][x]);
    }
    QueuedAfterPush(s, t, o, e, x);
  }

  lemma IndexAfterPush(s: Shape, t: Shape, o: Order, e: int)
    requires IndexOk(s) && Partitioned(s) && Distinct(s.free) && s.free != [] && e == s.free[0]
    requires o.id !in s.index
    requires |t.ns| == |s.ns| && t.index == s.index[o.id := e] && t.free == s.free[1..]
    requires forall x :: Queued(t, x) <==> Queued(s, x) || x == e
    requires forall x :: 0 <= x < |s.ns| ==> t.ns[x].id == if x == e then o.id else s.ns[x].id
    ensures IndexOk(t) && Partitioned(t)
  {
    assert forall x :: x in s.free <==> x == e || x in t.free;
    assert e !in t.free;
  }

  lemma RestedIndex(s: Shape, o: Order)
    requires CanRest(s, o)
    ensures IndexOk(Rested(s, o)) && Partitioned(Rested(s, o))
  {
    var t, e := Rested(s, o), s.free[0];
    RestHere(s, o);
    RestedData(s, o);
    forall x: int
      ensures Queued(t, x) <==> Queued(s, x) || x == e
      ensures 0 <= x < |s.ns| ==> t.ns[x].id == if x == e then o.id else s.ns[x].id
    {
      RestedQueued(s, o, x);
      assert 0 <= x < |s.ns| ==> ToOrder(t.ns[x]) == ToOrder(s.ns[e := FreshNode(o)][x]);
    }
    IndexAfterPush(s, t, o, e);
  }

  lemma RestedCore(s: Shape, o: Order)
    requires CanRest(s, o)
    ensures Core(Rested(s, o))
  {
    RestedSide(s, o, Buy);
    RestedSide(s, o, Sell);
    RestedIndex(s, o);
  }

  lemma RestedSameOrders(s: Shape, o: Order, side2: Side, p2: int)
    requires CanRest(s, o) && p2 in s.Qs(side2)
    ensures var q2 := s.Qs(side2)[p2];
            InSlab(q2, |s.ns|) && |Rested(s, o).ns| == |s.ns| && OrdersOf(Rested(s, o).ns, q2) == OrdersOf(s.ns, q2)
  {
    RestHere(s, o);
    RestedData(s, o);
    SidesOf(s, side2);
    var t, e, q2 := Rested(s, o), s.free[0], s.Qs(side2)[p2];
    forall i | 0 <= i < |q2|
      ensures ToOrder(t.ns[q2[i]]) == ToOrder(s.ns[q2[i]])
    {
      InQueueIsQueued(s, side2, p2, i);
      assert ToOrder(t.ns[q2[i]]) == ToOrder(s.ns[e := FreshNode(o)][q2[i]]);
    }
  }

  lemma RestedNewLevel(s: Shape, o: Order)
    requires CanRest(s, o) && SideFine(s, o.side) && SideFine(Rested(s, o), o.side)
    ensures var t := Rested(s, o);
            OrdersOf(t.ns, t.Qs(o.side)[o.price]) == LevelAt(LevelsOf(s, o.side), o.price) + [o]
  {
    RestHere(s, o);
    RestedData(s, o);
    var t, e := Rested(s, o), s.free[0];
    var q := QueueOr(s.Qs(o.side), o.price);
    if o.price in s.Qs(o.side) {
      RestedSameOrders(s, o, o.side, o.price);
    }
    assert ToOrder(t.ns[e]) == ToOrder(s.ns[e := FreshNode(o)][e]) == o;
    assert OrdersOf(t.ns, q + [e]) == OrdersOf(t.ns, q) + [o];
  }

  lemma RestedSameLevels(s: Shape, o: Order, side2: Side)
    requires CanRest(s, o)
    ensures |Rested(s, o).ns| == |s.ns| && SideFine(s, side2)
    ensures forall p2 :: p2 in s.Qs(side2) ==>
              OrdersOf(Rested(s, o).ns, s.Qs(side2)[p2]) == OrdersOf(s.ns, s.Qs(side2)[p2])
  {
    SidesOf(s, side2);
    RestedData(s, o);
    forall p2 | p2 in s.Qs(side2)
      ensures OrdersOf(Rested(s, o).ns, s.Qs(side2)[p2]) == OrdersOf(s.ns, s.Qs(side2)[p2])
    {
      RestedSameOrders(s, o, side2, p2);
    }
  }

  lemma RestedSameSide(s: Shape, o: Order)
    requires CanRest(s, o) && SideFine(s, o.side)
    ensures SideFine(Rested(s, o), o.side)
    ensures Flat(Rested(s, o), o.side) == Insert(o.side, Flat(s, o.side), o)
  {
    RestedSide(s, o, o.side);
    RestedSameLevels(s, o, o.side);
    RestedNewLevel(s, o);
    LevelsAfterEdit(s, Rested(s, o), o.side, o.price, LevelAt(LevelsOf(s, o.side), o.price) + [o]);
    LevelsPriced(s, o.side);
    FlattenInsert(o.side, LevelsOf(s, o.side), o);
  }

  lemma RestedOtherSide(s: Shape, o: Order)
    requires CanRest(s, o) && SideFine(s, o.side.Opposite())
    ensures SideFine(Rested(s, o), o.side.Opposite())
    ensures Flat(Rested(s, o), o.side.Opposite()) == Flat(s, o.side.Opposite())
  {
    RestedSide(s, o, o.side.Opposite());
    RestedSameLevels(s, o, o.side.Opposite());
    LevelsUntouched(s, Rested(s, o), o.side.Opposite());
  }

  /** Resting an order inserts it, and changes nothing else in the book. */
  lemma RestedFlat(s: Shape, o: Order)
    requires CanRest(s, o) && SideFine(s, o.side) && SideFine(s, o.side.Opposite())
    ensures var t := Rested(s, o);
            && Core(t)
            && Flat(t, o.side) == Insert(o.side, Flat(s, o.side), o)
            && Flat(t, o.side.Opposite()) == Flat(s, o.side.Opposite())
  {
    RestedCore(s, o);
    RestedSameSide(s, o);
    RestedOtherSide(s, o);
  }

  // ----- reducing a quantity -----

  function Reduced(s: Shape, e: int, qty: int): Shape
    requires 0 <= e < |s.ns|
  {
    s.(ns := s.ns[e := s.ns[e].(qty := qty)])
  }

  lemma ReducedSide(s: Shape, e: int, qty: int, side: Side)
    requires SideFine(s, side) && 0 <= e < |s.ns|
    ensures SideFine(Reduced(s, e, qty), side)
  {
    var t := Reduced(s, e, qty);
    forall p | p in s.Qs(side)
      ensures LevelOk(t.ns, side, p, s.Lv(side)[p], s.Qs(side)[p])
    {
      var q := s.Qs(side)[p];
      LevelFine(s, side, p);
      forall i | 0 <= i < |q|
        ensures LinkAt(t.ns, q, i)
      {
        assert LinkAt(s.ns, q, i);
      }
    }
  }

  lemma ReducedCore(s: Shape, e: int, qty: int)
    requires Core(s) && 0 <= e < |s.ns|
    ensures Core(Reduced(s, e, qty))
  {
    var t := Reduced(s, e, qty);
    SidesOf(s, Buy);
    SidesOf(s, Sell);
    ReducedSide(s, e, qty, Buy);
    ReducedSide(s, e, qty, Sell);
    forall x: int
      ensures Queued(t, x) <==> Queued(s, x)
    {
    }
    SameQueuedSameIndex(s, t);
  }

  /** Reducing a slot leaves the orders of every list without it alone. */
  lemma ReducedElsewhere(s: Shape, side: Side, p: int, k: nat, qty: int, side2: Side)
    requires CanRemove(s, side, p, k) && SideFine(s, side2)
    ensures var ns' := Reduced(s, s.Qs(side)[p][k], qty).ns;
            forall p2 :: p2 in s.Qs(side2) && (side2 != side || p2 != p) ==>
              OrdersOf(ns', s.Qs(side2)[p2]) == OrdersOf(s.ns, s.Qs(side2)[p2])
  {
    forall p2 | p2 in s.Qs(side2) && (side2 != side || p2 != p)
      ensures OrdersOf(Reduced(s, s.Qs(side)[p][k], qty).ns, s.Qs(side2)[p2]) == OrdersOf(s.ns, s.Qs(side2)[p2])
    {
      QueuesDisjoint(s, side, p, side2, p2);
    }
  }

  lemma OrdersReduced(ns: seq<Node>, q: seq<int>, qty: int)
    requires InSlab(q, |ns|) && Distinct(q) && q != []
    ensures OrdersOf(ns[q[0] := ns[q[0]].(qty := qty)], q)
            == [OrdersOf(ns, q)[0].(qty := qty)] + OrdersOf(ns, q)[1..]
  {
  }

  /** Reducing the front order of the best level changes the front of the book only. */
  lemma ReducedFlat(s: Shape, side: Side, p: int, qty: int)
    requires Core(s) && CanRemove(s, side, p, 0)
    requires forall k :: k in s.Qs(side) ==> k == p || Better(side, p, k)
    ensures var t := Reduced(s, s.Qs(side)[p][0], qty);
            && Core(t)
            && Flat(s, side) != [] && Flat(s, side)[0] == ToOrder(s.ns[s.Qs(side)[p][0]])
            && Flat(t, side) == [Flat(s, side)[0].(qty := qty)] + Flat(s, side)[1..]
            && Flat(t, side.Opposite()) == Flat(s, side.Opposite())
  {
    SidesOf(s, side.Opposite());
    ReducedCore(s, s.Qs(side)[p][0], qty);
    ReducedSameSide(s, side, p, qty);
    ReducedSide(s, s.Qs(side)[p][0], qty, side.Opposite());
    ReducedElsewhere(s, side, p, 0, qty, side.Opposite());
    LevelsUntouched(s, Reduced(s, s.Qs(side)[p][0], qty), side.Opposite());
  }

  lemma ReducedLevels(s: Shape, side: Side, p: int, qty: int, l: seq<Order>)
    requires CanRemove(s, side, p, 0) && l == OrdersOf(s.ns, s.Qs(side)[p])
    requires SideFine(Reduced(s, s.Qs(side)[p][0], qty), side)
    ensures LevelsOf(Reduced(s, s.Qs(side)[p][0], qty), side) == LevelsOf(s, side)[p := [l[0].(qty := qty)] + l[1..]]
  {
    var t := Reduced(s, s.Qs(side)[p][0], qty);
    assert t.Qs(side) == s.Qs(side);
    assert s.Qs(side)[p := s.Qs(side)[p]] == s.Qs(side);
    assert OrdersOf(t.ns, t.Qs(side)[p]) == [l[0].(qty := qty)] + l[1..] by {
      LevelFine(s, side, p);
      OrdersReduced(s.ns, s.Qs(side)[p], qty);
    }
    ReducedElsewhere(s, side, p, 0, qty, side);
    LevelsAfterEdit(s, t, side, p, [l[0].(qty := qty)] + l[1..]);
  }

  /** Changing the first order of the first level. */
  lemma FlattenChangeFront(side: Side, m: LevelMap, p: int, o: Order)
    requires p in m && m[p] != [] && forall k :: k in m ==> k == p || Better(side, p, k)
    ensures Flatten(side, m) != [] && Flatten(side, m)[0] == m[p][0]
    ensures Flatten(side, m[p := [o] + m[p][1..]]) == [o] + Flatten(side, m)[1..]
  {
    FlattenFront(side, m, p, [o] + m[p][1..]);
    var rest := Flatten(side, m - {p});
    assert (m[p] + rest)[1..] == m[p][1..] + rest;
  }

  lemma ReducedSameSide(s: Shape, side: Side, p: int, qty: int)
    requires CanRemove(s, side, p, 0)
    requires forall k :: k in s.Qs(side) ==> k == p || Better(side, p, k)
    ensures var t := Reduced(s, s.Qs(side)[p][0], qty);
            && SideFine(t, side)
            && Flat(s, side) != [] && Flat(s, side)[0] == ToOrder(s.ns[s.Qs(side)[p][0]])
            && Flat(t, side) == [Flat(s, side)[0].(qty := qty)] + Flat(s, side)[1..]
  {
    ReducedSide(s, s.Qs(side)[p][0], qty, side);
    ReducedLevels(s, side, p, qty, OrdersOf(s.ns, s.Qs(side)[p]));
    var m: LevelMap := LevelsOf(s, side);
    FlattenChangeFront(side, m, p, m[p][0].(qty := qty));
  }

  /** The front of the best level is the front of the book. */
  lemma BestFront(s: Shape, side: Side, p: int)
    requires CanRemove(s, side, p, 0)
    requires forall k :: k in s.Qs(side) ==> k == p || Better(side, p, k)
    ensures Flat(s, side) != [] && Flat(s, side)[0] == ToOrder(s.ns[s.Qs(side)[p][0]])
  {
    FlattenFront(side, LevelsOf(s, side), p, []);
  }
}
