/** The engine: the linked book behind a contract that speaks only of the reference book. */
module Engines {
  import opened Orders
  import opened PriorityBook
  import L = LimitBook

  class Engine {
    const book: L.OrderBook
    /** The trades of the last placement. */
    var lastTrades: seq<Trade>

    ghost const Repr: set<object> := {this} + book.Repr

    ghost predicate Valid()
      reads Repr
    {
      book.Valid()
    }

    ghost function View(): Book
      requires Valid()
      reads Repr
    {
      book.Abs()
    }

    constructor (capacity: nat)
      ensures Valid() && fresh(Repr) && View() == Empty(capacity)
    {
      book := new L.OrderBook(capacity);
      lastTrades := [];
    }

    method PlaceLimit(side: Side, price: int, qty: int) returns (id: nat)
      requires Valid()
      modifies Repr
      ensures Valid()
      ensures var r := Place(old(View()), side, price, qty);
              View() == r.book && id == r.id == old(View()).nextId && lastTrades == r.trades
    {
      hide Fill, Insert, L.OrderBook.Valid, L.OrderBook.Abs, L.OrderBook.S;
      id, lastTrades := book.PlaceLimit(side, price, qty);
    }

    method CancelOrder(id: nat) returns (ok: bool)
      requires Valid()
      modifies Repr
      ensures Valid() && ok == Rests(old(View()), id) && View() == Cancel(old(View()), id)
    {
      hide Cancel, Rests, L.OrderBook.Valid, L.OrderBook.Abs, L.OrderBook.S;
      ghost var k;
      ok, k := book.CancelOrder(id);
    }

    method BestBidPrice() returns (p: int)
      requires Valid()
      ensures p == BestBid(View())
    {
      p := book.BestBidPrice();
    }

    method BestAskPrice() returns (p: int)
      requires Valid()
      ensures p == BestAsk(View())
    {
      p := book.BestAskPrice();
    }

    method QtyAtPrice(side: Side, price: int) returns (q: int)
      requires Valid()
      ensures q == QtyAt(SideOf(View(), side), price)
    {
      q := book.QtyAtPrice(side, price);
    }
  }
}
