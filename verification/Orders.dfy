/** The vocabulary shared by every component: sides, resting orders, trades. */
module Orders {

  datatype Side = Buy | Sell {
    function Opposite(): Side {
      if Buy? then Sell else Buy
    }
  }

  /** A resting order: what an `OrderNode` holds apart from its links. */
  datatype Order = Order(id: nat, side: Side, price: int, qty: int, ts: nat)

  datatype Trade = Trade(takerId: nat, makerId: nat, price: int, qty: int)

  /** Price `p` is strictly ahead of price `q` on `side` (bids: higher first, asks: lower first). */
  predicate Better(side: Side, p: int, q: int) {
    if side.Buy? then p > q else p < q
  }

  /** A `taker` order limited at `limit` may trade at the resting price `px`. */
  predicate Crosses(taker: Side, limit: int, px: int) {
    if taker.Buy? then px <= limit else px >= limit
  }

  /** Selects the value belonging to `side`. */
  function Pick<T>(side: Side, bid: T, ask: T): T {
    if side.Buy? then bid else ask
  }

  function Min(a: int, b: int): int {
    if a <= b then a else b
  }

  function Max(a: int, b: int): int {
    if a >= b then a else b
  }
}
