/**
  One side of the book as an ordered map from price to the FIFO of orders at that price, and how
  editing the best or any other level edits the flat priority order.
 */
module Levels {
  import opened Orders
  import opened PriorityBook
  import opened BookInvariant

  type LevelMap = map<int, seq<Order>>

  lemma {:induction false} FindBest(side: Side, keys: set<int>)
    returns (p: int)
    requires keys != {}
    ensures p in keys && forall k :: k in keys ==> k == p || Better(side, p, k)
    decreases |keys|
  {
    assert (forall x :: x !in keys) ==> keys == {};
    var x :| x in keys;
    p := x;
    if keys != {x} {
      p := FindBest(side, keys - {x});
      BetterOf(side, keys, x, p);
      if Better(side, x, p) {
        p := x;
      }
    }
  }

  /** The better of `x` and the best of the other keys is the best of all. */
  lemma BetterOf(side: Side, keys: set<int>, x: int, p: int)
    requires x in keys && p in keys && x != p
    requires forall k :: k in keys - {x} ==> k == p || Better(side, p, k)
    ensures var best := if Better(side, x, p) then x else p;
            best in keys && forall k :: k in keys ==> k == best || Better(side, best, k)
  {
    var best := if Better(side, x, p) then x else p;
    forall k | k in keys
      ensures k == best || Better(side, best, k)
    {
      assert k == x || k in keys - {x};
    }
  }

  /** The first key of the ordered map. */
  function Best(side: Side, keys: set<int>): (p: int)
    requires keys != {}
    ensures p in keys
    ensures forall k :: k in keys ==> k == p || Better(side, p, k)
  {
    assert exists p :: p in keys && forall k :: k in keys ==> k == p || Better(side, p, k) by {
      var p := FindBest(side, keys);
    }
    var p :| p in keys && forall k :: k in keys ==> k == p || Better(side, p, k);
    p
  }

  lemma BestIs(side: Side, keys: set<int>, p: int)
    requires p in keys && forall k :: k in keys ==> k == p || Better(side, p, k)
    ensures Best(side, keys) == p
  {
  }

  /** All the orders of a side, best price first, arrival order within a price. */
  function Flatten(side: Side, m: LevelMap): seq<Order>
    decreases |m|
  {
    if m == map[] then []
    else
      var p := Best(side, m.Keys);
      assert |m - {p}| < |m| by { EraseShrinks(m, p); }
      m[p] + Flatten(side, m - {p})
  }

  lemma EraseShrinks<K, V>(m: map<K, V>, k: K)
    requires k in m
    ensures |m - {k}| == |m| - 1
  {
    assert (m - {k}).Keys == m.Keys - {k};
    assert |m.Keys - {k}| == |m.Keys| - 1;
    assert |m| == |m.Keys| && |m - {k}| == |(m - {k}).Keys|;
  }

  predicate Priced(m: LevelMap) {
    forall p, i :: p in m && 0 <= i < |m[p]| ==> m[p][i].price == p
  }

  /** Editing the best level edits the front of the flat order. */
  lemma FlattenFront(side: Side, m: LevelMap, p: int, l: seq<Order>)
    requires p in m && forall k :: k in m ==> k == p || Better(side, p, k)
    ensures Flatten(side, m) == m[p] + Flatten(side, m - {p})
    ensures Flatten(side, m[p := l]) == l + Flatten(side, m - {p})
  {
    BestIs(side, m.Keys, p);
    BestIs(side, m[p := l].Keys, p);
    assert m[p := l] - {p} == m - {p};
  }

  lemma {:induction false} FlattenPrices(side: Side, m: LevelMap)
    requires Priced(m)
    ensures forall i :: 0 <= i < |Flatten(side, m)| ==> Flatten(side, m)[i].price in m
    decreases |m|
  {
    if m != map[] {
      var p := Best(side, m.Keys);
      EraseShrinks(m, p);
      FlattenPrices(side, m - {p});
    }
  }

  /** `Insert` walks past orders that are at least as good. */
  lemma {:induction false} InsertBehind(side: Side, a: seq<Order>, b: seq<Order>, o: Order)
    requires forall i :: 0 <= i < |a| ==> !Better(side, o.price, a[i].price)
    ensures Insert(side, a + b, o) == a + Insert(side, b, o)
    decreases |a|
  {
    if a == [] {
      assert a + b == b;
      assert a + Insert(side, b, o) == Insert(side, b, o);
    } else {
      InsertBehind(side, a[1..], b, o);
      assert (a + b)[1..] == a[1..] + b;
      assert a + Insert(side, b, o) == [a[0]] + (a[1..] + Insert(side, b, o));
    }
  }

  function LevelAt(m: LevelMap, p: int): seq<Order> {
    if p in m then m[p] else []
  }

  function Pushed(m: LevelMap, o: Order): LevelMap {
    m[o.price := LevelAt(m, o.price) + [o]]
  }

  lemma FlattenInsertNewBest(side: Side, m: LevelMap, o: Order)
    requires Priced(m)
    requires forall k :: k in m ==> Better(side, o.price, k)
    ensures Flatten(side, Pushed(m, o)) == Insert(side, Flatten(side, m), o)
  {
    FlattenPrices(side, m);
    BestIs(side, Pushed(m, o).Keys, o.price);
    assert Pushed(m, o) - {o.price} == m;
  }

  lemma FlattenInsertAtBest(side: Side, m: LevelMap, o: Order)
    requires Priced(m) && o.price in m
    requires forall k :: k in m ==> k == o.price || Better(side, o.price, k)
    ensures Flatten(side, Pushed(m, o)) == Insert(side, Flatten(side, m), o)
  {
    var p := o.price;
    var rest := Flatten(side, m - {p});
    FlattenFront(side, m, p, m[p] + [o]);
    FlattenPrices(side, m - {p});
    InsertBehind(side, m[p], rest, o);
    assert (m[p] + [o]) + rest == m[p] + ([o] + rest);
  }

  /** Pushing an order to the back of its level inserts it at its priority. */
  lemma {:induction false} FlattenInsert(side: Side, m: LevelMap, o: Order)
    requires Priced(m)
    ensures Flatten(side, Pushed(m, o)) == Insert(side, Flatten(side, m), o)
    decreases |m|
  {
    if m == map[] {
      FlattenInsertNewBest(side, m, o);
    } else {
      var p := Best(side, m.Keys);
      if Better(side, o.price, p) {
        FlattenInsertNewBest(side, m, o);
      } else if p == o.price {
        FlattenInsertAtBest(side, m, o);
      } else {
        EraseShrinks(m, p);
        FlattenInsert(side, m - {p}, o);
        InsertBehind(side, m[p], Flatten(side, m - {p}), o);
        BestIs(side, Pushed(m, o).Keys, p);
        assert Pushed(m, o) - {p} == Pushed(m - {p}, o);
      }
    }
  }

  /** An empty level contributes nothing. */
  lemma {:induction false} FlattenDropEmpty(side: Side, m: LevelMap, p: int)
    requires p in m && m[p] == []
    ensures Flatten(side, m - {p}) == Flatten(side, m)
    decreases |m|
  {
    var b := Best(side, m.Keys);
    EraseShrinks(m, b);
    if b == p {
      assert m[p] + Flatten(side, m - {p}) == Flatten(side, m - {p});
    } else {
      FlattenDropEmpty(side, m - {b}, p);
      BestIs(side, (m - {p}).Keys, b);
      assert m - {b} - {p} == m - {p} - {b};
    }
  }

  lemma RemoveFront(q: seq<Order>, id: nat)
    requires q != []
    ensures Remove(q, id) == (if q[0].id == id then [] else [q[0]]) + Remove(q[1..], id)
  {
  }

  lemma {:induction false} RemoveAppend(a: seq<Order>, b: seq<Order>, id: nat)
    ensures Remove(a + b, id) == Remove(a, id) + Remove(b, id)
  {
    assert Remove([], id) == [];
    hide Remove;
    if a == [] {
      assert a + b == b;
      assert [] + Remove(b, id) == Remove(b, id);
    } else {
      RemoveAppend(a[1..], b, id);
      RemoveFront(a, id);
      RemoveFront(a + b, id);
      assert (a + b)[1..] == a[1..] + b && (a + b)[0] == a[0];
      Regroup(if a[0].id == id then [] else [a[0]], Remove(a[1..], id), Remove(b, id));
    }
  }

  lemma Regroup<T>(a: seq<T>, b: seq<T>, c: seq<T>)
    ensures a + (b + c) == a + b + c
  {
  }

  /** Removing an id inside its level removes it from the flat order. */
  lemma {:induction false} FlattenRemove(side: Side, m: LevelMap, p: int, id: nat)
    requires p in m
    requires forall k, i :: k in m && k != p && 0 <= i < |m[k]| ==> m[k][i].id != id
    ensures Flatten(side, m[p := Remove(m[p], id)]) == Remove(Flatten(side, m), id)
    decreases |m|
  {
    var b := Best(side, m.Keys);
    EraseShrinks(m, b);
    RemoveAppend(m[b], Flatten(side, m - {b}), id);
    if b == p {
      FlattenFront(side, m, p, Remove(m[p], id));
      FlattenAbsent(side, m - {p}, id);
      RemoveAbsent(Flatten(side, m - {p}), id);
    } else {
      FlattenRemove(side, m - {b}, p, id);
      BestIs(side, m[p := Remove(m[p], id)].Keys, b);
      assert m[p := Remove(m[p], id)] - {b} == (m - {b})[p := Remove(m[p], id)];
      RemoveAbsent(m[b], id);
    }
  }

  lemma {:induction false} FlattenAbsent(side: Side, m: LevelMap, id: nat)
    requires forall k, i :: k in m && 0 <= i < |m[k]| ==> m[k][i].id != id
    ensures forall i :: 0 <= i < |Flatten(side, m)| ==> Flatten(side, m)[i].id != id
    decreases |m|
  {
    if m != map[] {
      var b := Best(side, m.Keys);
      EraseShrinks(m, b);
      FlattenAbsent(side, m - {b}, id);
    }
  }

  /** Every order of a level occurs in the flat order. */
  lemma {:induction false} FlattenPresent(side: Side, m: LevelMap, p: int, i: nat)
    requires p in m && i < |m[p]|
    ensures exists j :: 0 <= j < |Flatten(side, m)| && Flatten(side, m)[j] == m[p][i]
    decreases |m|
  {
    var b := Best(side, m.Keys);
    EraseShrinks(m, b);
    if b == p {
      assert Flatten(side, m)[i] == m[p][i];
    } else {
      FlattenPresent(side, m - {b}, p, i);
      var j :| 0 <= j < |Flatten(side, m - {b})| && Flatten(side, m - {b})[j] == m[p][i];
      assert Flatten(side, m)[|m[b]| + j] == m[p][i];
    }
  }

  function SumQty(l: seq<Order>): int {
    if l == [] then 0 else l[0].qty + SumQty(l[1..])
  }

  lemma {:induction false} QtyAtAppend(a: seq<Order>, b: seq<Order>, price: int)
    ensures QtyAt(a + b, price) == QtyAt(a, price) + QtyAt(b, price)
  {
    if a == [] {
      assert a + b == b;
    } else {
      QtyAtAppend(a[1..], b, price);
      assert (a + b)[1..] == a[1..] + b;
    }
  }

  lemma {:induction false} QtyAtLevel(l: seq<Order>, p: int, price: int)
    requires forall i :: 0 <= i < |l| ==> l[i].price == p
    ensures QtyAt(l, price) == if p == price then SumQty(l) else 0
  {
    if l != [] {
      QtyAtLevel(l[1..], p, price);
    }
  }

  /** The quantity at a price is the sum over its level, 0 when there is none. */
  lemma {:induction false} FlattenQtyAt(side: Side, m: LevelMap, price: int)
    requires Priced(m)
    ensures QtyAt(Flatten(side, m), price) == SumQty(LevelAt(m, price))
    decreases |m|
  {
    if m != map[] {
      var b := Best(side, m.Keys);
      EraseShrinks(m, b);
      FlattenQtyAt(side, m - {b}, price);
      QtyAtAppend(m[b], Flatten(side, m - {b}), price);
      QtyAtLevel(m[b], b, price);
    }
  }
}
