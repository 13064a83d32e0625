/**
  The linked representation of the book as a value: node links, level heads and tails, id index and
  free slots, next to the queues they stand for. Each edit the book makes is defined here and proved
  to keep the representation consistent.
 */
module BookShape {
  import opened Orders
  import opened ObjectPools
  import opened Levels

  datatype Node = Node(id: nat, side: Side, price: int, qty: int, ts: nat, prev: int, next: int)

  datatype Level = Level(head: int, tail: int)

  const EMPTY_LEVEL: Level := Level(NULL, NULL)

  type Queues = map<int, seq<int>>

  function LastOf(s: seq<int>): int {
    if s == [] then NULL else s[|s| - 1]
  }

  function Pred(s: seq<int>, i: int): int
    requires 0 <= i < |s|
  {
    if i > 0 then s[i - 1] else NULL
  }

  predicate LinkAt(ns: seq<Node>, q: seq<int>, i: int)
    requires InSlab(q, |ns|) && 0 <= i < |q|
  {
    ns[q[i]].next == Succ(q, i) && ns[q[i]].prev == Pred(q, i)
  }

  /** `lvl` and the links of `ns` form the doubly linked list of the slots `q`. */
  predicate Linked(ns: seq<Node>, lvl: Level, q: seq<int>) {
    && InSlab(q, |ns|)
    && lvl == Level(HeadOf(q), LastOf(q))
    && forall i {:trigger LinkAt(ns, q, i)} :: 0 <= i < |q| ==> LinkAt(ns, q, i)
  }

  /** A doubly linked list cannot visit a slot twice. */
  lemma {:induction false} NoRepeat(ns: seq<Node>, lvl: Level, q: seq<int>, i: nat, j: nat)
    requires Linked(ns, lvl, q) && i < j < |q|
    ensures q[i] != q[j]
  {
    assert LinkAt(ns, q, i) && LinkAt(ns, q, j);
    if i > 0 {
      NoRepeat(ns, lvl, q, i - 1, j - 1);
    }
  }

  lemma LinkedDistinct(ns: seq<Node>, lvl: Level, q: seq<int>)
    requires Linked(ns, lvl, q)
    ensures Distinct(q)
  {
    forall i, j | 0 <= i < j < |q|
      ensures q[i] != q[j]
    {
      NoRepeat(ns, lvl, q, i, j);
    }
  }

  predicate Tagged(ns: seq<Node>, side: Side, price: int, q: seq<int>)
    requires InSlab(q, |ns|)
  {
    forall i :: 0 <= i < |q| ==> ns[q[i]].side == side && ns[q[i]].price == price
  }

  predicate LevelOk(ns: seq<Node>, side: Side, p: int, lvl: Level, q: seq<int>) {
    Linked(ns, lvl, q) && Tagged(ns, side, p, q)
  }

  /** Every level of a side is linked and holds orders of that side and price. */
  ghost predicate SideOk(ns: seq<Node>, side: Side, lv: map<int, Level>, qs: Queues) {
    && lv.Keys == qs.Keys
    && (forall p :: p in qs ==> InSlab(qs[p], |ns|))
    && forall p {:trigger LevelOk(ns, side, p, lv[p], qs[p])} :: p in qs ==> LevelOk(ns, side, p, lv[p], qs[p])
  }

  datatype Shape = Shape(
    ns: seq<Node>,
    bids: map<int, Level>, asks: map<int, Level>,
    bidQ: Queues, askQ: Queues,
    index: map<nat, int>,
    free: seq<int>)
  {
    function Lv(side: Side): map<int, Level> { Pick(side, bids, asks) }
    function Qs(side: Side): Queues { Pick(side, bidQ, askQ) }
    function WithSide(side: Side, lv: map<int, Level>, qs: Queues): Shape {
      if side.Buy? then this.(bids := lv, bidQ := qs) else this.(asks := lv, askQ := qs)
    }
  }

  /** Slot `e` is linked into the level its own side and price name. */
  predicate Queued(s: Shape, e: int) {
    && 0 <= e < |s.ns|
    && s.ns[e].price in s.Qs(s.ns[e].side)
    && e in s.Qs(s.ns[e].side)[s.ns[e].price]
  }

  ghost predicate IndexOk(s: Shape) {
    && (forall id {:trigger s.index[id]} :: id in s.index ==> Queued(s, s.index[id]) && s.ns[s.index[id]].id == id)
    && (forall e {:trigger Queued(s, e)} :: Queued(s, e) ==> s.ns[e].id in s.index && s.index[s.ns[e].id] == e)
  }

  /** Free slots and queued slots partition the slab. */
  ghost predicate Partitioned(s: Shape) {
    && InSlab(s.free, |s.ns|)
    && forall e {:trigger Queued(s, e)} :: 0 <= e < |s.ns| ==> (e in s.free <==> !Queued(s, e))
  }

  ghost predicate Core(s: Shape) {
    && SideOk(s.ns, Buy, s.bids, s.bidQ)
    && SideOk(s.ns, Sell, s.asks, s.askQ)
    && IndexOk(s)
    && Partitioned(s)
  }

  predicate LevelsFull(s: Shape, side: Side) {
    forall p :: p in s.Qs(side) ==> s.Qs(side)[p] != []
  }

  predicate NoEmptyLevel(s: Shape) {
    LevelsFull(s, Buy) && LevelsFull(s, Sell)
  }

  // ----- abstraction -----

  function ToOrder(n: Node): Order {
    Order(n.id, n.side, n.price, n.qty, n.ts)
  }

  function OrdersOf(ns: seq<Node>, q: seq<int>): (r: seq<Order>)
    requires InSlab(q, |ns|)
    ensures |r| == |q|
    ensures forall i :: 0 <= i < |q| ==> r[i] == ToOrder(ns[q[i]])
  {
    seq(|q|, i requires 0 <= i < |q| => ToOrder(ns[q[i]]))
  }

  ghost function LevelsOf(s: Shape, side: Side): LevelMap
    requires SideOk(s.ns, side, s.Lv(side), s.Qs(side))
  {
    map p | p in s.Qs(side) :: OrdersOf(s.ns, s.Qs(side)[p])
  }

  lemma LevelsPriced(s: Shape, side: Side)
    requires SideOk(s.ns, side, s.Lv(side), s.Qs(side))
    ensures Priced(LevelsOf(s, side))
  {
    forall p, i | p in LevelsOf(s, side) && 0 <= i < |LevelsOf(s, side)[p]|
      ensures LevelsOf(s, side)[p][i].price == p
    {
      assert LevelOk(s.ns, side, p, s.Lv(side)[p], s.Qs(side)[p]);
    }
  }

  ghost function Flat(s: Shape, side: Side): seq<Order>
    requires SideOk(s.ns, side, s.Lv(side), s.Qs(side))
  {
    Flatten(side, LevelsOf(s, side))
  }

  // ----- unlinking -----

  predicate LinksInSlab(ns: seq<Node>, e: int) {
    && 0 <= e < |ns|
    && (ns[e].prev == NULL || 0 <= ns[e].prev < |ns|)
    && (ns[e].next == NULL || 0 <= ns[e].next < |ns|)
  }

  function UnlinkedNodes(ns: seq<Node>, e: int): (r: seq<Node>)
    requires LinksInSlab(ns, e)
    ensures |r| == |ns|
    ensures r[e] == ns[e].(prev := NULL, next := NULL)
    ensures forall x :: 0 <= x < |ns| && x != e ==>
              r[x] == ns[x].(next := if x == ns[e].prev then ns[e].next else ns[x].next,
                             prev := if x == ns[e].next then ns[e].prev else ns[x].prev)
  {
    var n := ns[e];
    var a := if n.prev != NULL then ns[n.prev := ns[n.prev].(next := n.next)] else ns;
    var b := if n.next != NULL then a[n.next := a[n.next].(prev := n.prev)] else a;
    b[e := b[e].(prev := NULL, next := NULL)]
  }

  function UnlinkedLevel(ns: seq<Node>, lvl: Level, e: int): Level
    requires LinksInSlab(ns, e)
  {
    Level(if ns[e].prev != NULL then lvl.head else ns[e].next,
          if ns[e].next != NULL then lvl.tail else ns[e].prev)
  }

  function Without(q: seq<int>, k: nat): (r: seq<int>)
    requires k < |q|
    ensures |r| == |q| - 1
    ensures forall i :: 0 <= i < |r| ==> r[i] == q[if i < k then i else i + 1]
  {
    q[..k] + q[k + 1..]
  }

  /** Only the links differ. */
  predicate SameData(ns: seq<Node>, ns': seq<Node>) {
    && |ns| == |ns'|
    && forall e :: 0 <= e < |ns| ==> ToOrder(ns'[e]) == ToOrder(ns[e])
  }

  lemma UnlinkLinks(ns: seq<Node>, lvl: Level, q: seq<int>, k: nat)
    requires Linked(ns, lvl, q) && k < |q|
    ensures LinksInSlab(ns, q[k])
  {
    assert LinkAt(ns, q, k);
  }

  lemma UnlinkSameData(ns: seq<Node>, e: int)
    requires LinksInSlab(ns, e)
    ensures SameData(ns, UnlinkedNodes(ns, e))
  {
  }

  lemma UnlinkStep(ns: seq<Node>, lvl: Level, q: seq<int>, k: nat, i: nat)
    requires Linked(ns, lvl, q) && k < |q| && i < |q| - 1
    requires LinksInSlab(ns, q[k])
    ensures var ns' := UnlinkedNodes(ns, q[k]);
            var r := Without(q, k);
            InSlab(r, |ns'|) && LinkAt(ns', r, i)
  {
    assert LinkAt(ns, q, k);
    LinkedDistinct(ns, lvl, q);
    var j := if i < k then i else i + 1;
    var r := Without(q, k);
    assert r[i] == q[j] && q[j] != q[k];
    assert LinkAt(ns, q, j);
    assert (q[j] == ns[q[k]].prev) <==> (j + 1 == k);
    assert (q[j] == ns[q[k]].next) <==> (j == k + 1);
  }

  lemma WithoutDistinct(q: seq<int>, k: nat)
    requires Distinct(q) && k < |q|
    ensures Distinct(Without(q, k)) && q[k] !in Without(q, k)
    ensures forall e :: e in Without(q, k) <==> e in q && e != q[k]
  {
    var r := Without(q, k);
    forall e | e in q && e != q[k]
      ensures e in r
    {
      var j :| 0 <= j < |q| && q[j] == e;
      assert r[if j < k then j else j - 1] == e;
    }
  }

  /** Unlinking takes exactly that slot out of its list. */
  lemma UnlinkList(ns: seq<Node>, lvl: Level, q: seq<int>, k: nat)
    requires Linked(ns, lvl, q) && k < |q|
    requires LinksInSlab(ns, q[k])
    ensures Linked(UnlinkedNodes(ns, q[k]), UnlinkedLevel(ns, lvl, q[k]), Without(q, k))
  {
    var r := Without(q, k);
    assert LinkAt(ns, q, k);
    forall i | 0 <= i < |r|
      ensures LinkAt(UnlinkedNodes(ns, q[k]), r, i)
    {
      UnlinkStep(ns, lvl, q, k, i);
    }
  }

  /** Unlinking leaves every other list alone. */
  lemma UnlinkElsewhere(ns: seq<Node>, lvl: Level, q: seq<int>, k: nat, lvl2: Level, q2: seq<int>)
    requires Linked(ns, lvl, q) && k < |q| && LinksInSlab(ns, q[k])
    requires Linked(ns, lvl2, q2)
    requires forall i, j :: 0 <= i < |q| && 0 <= j < |q2| ==> q[i] != q2[j]
    ensures Linked(UnlinkedNodes(ns, q[k]), lvl2, q2)
  {
    assert LinkAt(ns, q, k);
    var ns' := UnlinkedNodes(ns, q[k]);
    forall j | 0 <= j < |q2|
      ensures LinkAt(ns', q2, j)
    {
      assert q2[j] != q[k] && LinkAt(ns, q2, j);
    }
  }

  // ----- pushing -----

  function PushedNodes(ns: seq<Node>, lvl: Level, e: int): seq<Node>
    requires 0 <= e < |ns| && (lvl.tail == NULL || 0 <= lvl.tail < |ns|)
  {
    var a := ns[e := ns[e].(prev := lvl.tail, next := NULL)];
    if lvl.tail != NULL then a[lvl.tail := a[lvl.tail].(next := e)] else a
  }

  function PushedLevel(lvl: Level, e: int): Level {
    Level(if lvl.tail != NULL then lvl.head else e, e)
  }

  lemma PushList(ns: seq<Node>, lvl: Level, q: seq<int>, e: int)
    requires Linked(ns, lvl, q) && 0 <= e < |ns| && e !in q
    ensures lvl.tail == NULL || 0 <= lvl.tail < |ns|
    ensures Linked(PushedNodes(ns, lvl, e), PushedLevel(lvl, e), q + [e])
    ensures SameData(ns, PushedNodes(ns, lvl, e))
  {
    var ns' := PushedNodes(ns, lvl, e);
    var r := q + [e];
    LinkedDistinct(ns, lvl, q);
    forall i | 0 <= i < |r|
      ensures LinkAt(ns', r, i)
    {
      assert i < |q| ==> LinkAt(ns, q, i);
    }
  }

  lemma PushElsewhere(ns: seq<Node>, lvl: Level, q: seq<int>, e: int, lvl2: Level, q2: seq<int>)
    requires Linked(ns, lvl, q) && 0 <= e < |ns|
    requires lvl.tail == NULL || 0 <= lvl.tail < |ns|
    requires Linked(ns, lvl2, q2) && e !in q2
    requires forall i, j :: 0 <= i < |q| && 0 <= j < |q2| ==> q[i] != q2[j]
    ensures Linked(PushedNodes(ns, lvl, e), lvl2, q2)
  {
    forall j | 0 <= j < |q2|
      ensures LinkAt(PushedNodes(ns, lvl, e), q2, j)
    {
      assert LinkAt(ns, q2, j);
    }
  }
}
