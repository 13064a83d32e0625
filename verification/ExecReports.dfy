/** Execution reports of one accepted order, and how they agree with the book. */
module ExecReports {
  import opened Orders
  import opened PriorityBook
  import opened BookInvariant
  import opened BookRuns

  /** Used both as ExecType and as OrdStatus. */
  datatype Status = New | PartialFill | FullFill | Canceled | Rejected

  datatype Report = Report(orderId: nat, execType: Status, ordStatus: Status, orderQty: real,
                           cumQty: int, leavesQty: int, lastQty: int, lastPx: real, avgPx: real)

  /** Prices are hundredths. */
  function Px(ticks: int): real {
    ticks as real / 100.0
  }

  function Cost(ticks: int, qty: int): real {
    Px(ticks) * qty as real
  }

  function Average(notional: real, cum: int): real {
    if cum == 0 then 0.0 else notional / cum as real
  }

  predicate PositiveTrades(ts: seq<Trade>) {
    forall i :: 0 <= i < |ts| ==> ts[i].qty > 0
  }

  function Notional(ts: seq<Trade>): real {
    if ts == [] then 0.0
    else Notional(ts[..|ts| - 1]) + Cost(ts[|ts| - 1].price, ts[|ts| - 1].qty)
  }

  lemma {:induction false} TotalSnoc(ts: seq<Trade>, t: Trade)
    ensures Total(ts + [t]) == Total(ts) + t.qty
  {
    if ts == [] {
      assert ts + [t] == [t] && [t][1..] == [];
    } else {
      TotalSnoc(ts[1..], t);
      assert (ts + [t])[1..] == ts[1..] + [t];
    }
  }

  lemma TotalUpTo(ts: seq<Trade>, k: nat)
    requires k < |ts|
    ensures Total(ts[..k + 1]) == Total(ts[..k]) + ts[k].qty
    ensures Notional(ts[..k + 1]) == Notional(ts[..k]) + Cost(ts[k].price, ts[k].qty)
  {
    assert ts[..k + 1] == ts[..k] + [ts[k]];
    TotalSnoc(ts[..k], ts[k]);
    assert ts[..k + 1][..k] == ts[..k];
  }

  lemma {:induction false} TotalGrows(ts: seq<Trade>, i: nat, j: nat)
    requires PositiveTrades(ts) && i <= j <= |ts|
    ensures 0 <= Total(ts[..i]) <= Total(ts[..j])
    ensures i < j ==> Total(ts[..i]) < Total(ts[..j])
  {
    if 0 < j {
      TotalUpTo(ts, j - 1);
      TotalGrows(ts, if i < j then i else j - 1, j - 1);
      if i == j {
        TotalGrows(ts, 0, j - 1);
      }
    }
  }

  lemma EmptySums(ts: seq<Trade>)
    ensures Total(ts[..0]) == 0 && Notional(ts[..0]) == 0.0
  {
  }

  lemma CostIs(ticks: int, qty: int)
    ensures Cost(ticks, qty) == Px(ticks) * qty as real
  {
  }

  /** The report of trade `k`: everything filled up to and including it. */
  function TradeReport(id: nat, qty: int, ts: seq<Trade>, k: nat): Report
    requires k < |ts|
  {
    var cum := Total(ts[..k + 1]);
    var final := k + 1 == |ts| && cum == qty;
    Report(id, if final then FullFill else PartialFill, if final then FullFill else PartialFill, qty as real,
           cum, qty - cum, ts[k].qty, Px(ts[k].price),
           Average(Notional(ts[..k + 1]), cum))
  }

  /** One report per trade and one more for a remainder; a lone NEW when nothing traded. */
  function Reports(id: nat, qty: int, ts: seq<Trade>): seq<Report> {
    if ts == [] then [Report(id, New, New, qty as real, 0, qty, 0, 0.0, 0.0)]
    else
      seq(|ts|, k requires 0 <= k < |ts| => TradeReport(id, qty, ts, k))
      + (if qty - Total(ts) > 0
         then [Report(id, New, PartialFill, qty as real, Total(ts), qty - Total(ts), 0, 0.0, 0.0)] else [])
  }

  method FilledQty(ts: seq<Trade>) returns (filled: int)
    ensures filled == Total(ts)
  {
    filled := 0;
    for i := 0 to |ts|
      invariant filled == Total(ts[..i])
    {
      TotalUpTo(ts, i);
      filled := filled + ts[i].qty;
    }
    assert ts[..|ts|] == ts;
  }

  /** The list, index by index. */
  lemma ReportsAre(id: nat, qty: int, ts: seq<Trade>, i: nat)
    requires i < |Reports(id, qty, ts)|
    ensures var rs := Reports(id, qty, ts);
            && (i < |ts| ==> rs[i] == TradeReport(id, qty, ts, i))
            && (i >= |ts| ==>
                  && i == |ts| && (ts == [] || qty - Total(ts) > 0)
                  && rs[i].execType == New && rs[i].orderId == id && rs[i].orderQty == qty as real
                  && rs[i].cumQty == Total(ts) && rs[i].leavesQty == qty - Total(ts))
            && |rs| == |ts| + (if ts == [] || qty - Total(ts) > 0 then 1 else 0)
  {
    hide TradeReport;
  }

  /** Computes the reports in one pass, accumulating filled quantity and notional. */
  method MakeReports(id: nat, qty: int, ts: seq<Trade>) returns (rs: seq<Report>)
    requires PositiveTrades(ts)
    ensures rs == Reports(id, qty, ts)
  {
    EmptySums(ts);
    assert ts == [] ==> ts[..0] == ts;
    hide Total, Notional, Cost;
    var filled := FilledQty(ts);
    var leaves := qty - filled;
    if ts == [] {
      return [Report(id, New, New, qty as real, 0, leaves, 0, 0.0, 0.0)];
    }
    rs := [];
    var cum, notional := 0, 0.0;
    for i := 0 to |ts|
      invariant cum == Total(ts[..i]) && notional == Notional(ts[..i])
      invariant rs == seq(i, k requires 0 <= k < i => TradeReport(id, qty, ts, k))
    {
      TotalUpTo(ts, i);
      TotalGrows(ts, i, i + 1);
      cum := cum + ts[i].qty;
      var px := Px(ts[i].price);
      CostIs(ts[i].price, ts[i].qty);
      notional := notional + px * ts[i].qty as real;
      assert notional == Notional(ts[..i + 1]);
      var avg := notional / cum as real;
      assert avg == Average(notional, cum);
      var lv := qty - cum;
      var status := if i + 1 == |ts| && lv == 0 then FullFill else PartialFill;
      var r := Report(id, status, status, qty as real, cum, lv, ts[i].qty, px, avg);
      assert r == TradeReport(id, qty, ts, i);
      rs := rs + [r];
    }
    if leaves > 0 {
      rs := rs + [Report(id, New, PartialFill, qty as real, filled, leaves, 0, 0.0, 0.0)];
    }
  }

  // ----- agreement with the book -----

  lemma RestingOfNew(b: Book, side: Side, price: int, qty: int)
    requires Inv(b) && qty >= 0
    ensures var r := Place(b, side, price, qty);
            && PositiveTrades(r.trades) && 0 <= Total(r.trades) <= qty
            && Resting(r.book, r.id) + r.dropped == qty - Total(r.trades)
  {
    var r := Place(b, side, price, qty);
    var q := SideOf(b, side.Opposite());
    PriceTimePriority(b, side, price, qty);
    InvBySide(b, side.Opposite());
    PlaceConserves(b, side, price, qty, r.id);
    RestsHasQty(b, r.id);
    assert forall i :: 0 <= i < |r.trades| ==> r.trades[i].makerId == q[i].id && q[i].id < r.id;
    NotMade(r.trades, r.id);
    CrossingNonNegative(q, side, price);
  }

  predicate AddsUp(r: Report, id: nat, qty: int) {
    && r.orderId == id && r.orderQty == qty as real
    && r.cumQty + r.leavesQty == qty && 0 <= r.cumQty <= qty
  }

  lemma ReportAddsUp(id: nat, qty: int, ts: seq<Trade>, i: nat)
    requires PositiveTrades(ts) && 0 <= Total(ts) <= qty && i < |Reports(id, qty, ts)|
    ensures AddsUp(Reports(id, qty, ts)[i], id, qty)
  {
    hide Total, Notional, Average, Reports;
    ReportsAre(id, qty, ts, i);
    if i < |ts| {
      assert ts[..|ts|] == ts;
      TotalGrows(ts, 0, i + 1);
      TotalGrows(ts, i + 1, |ts|);
    }
  }

  /** Every report adds up to the order, and the trade reports' filled quantities strictly increase. */
  lemma ReportsAddUp(id: nat, qty: int, ts: seq<Trade>)
    requires PositiveTrades(ts) && 0 <= Total(ts) <= qty
    ensures var rs := Reports(id, qty, ts);
            && |rs| >= 1 && |rs| >= |ts|
            && (forall i :: 0 <= i < |rs| ==> AddsUp(rs[i], id, qty))
            && (forall i, j :: 0 <= i < j < |ts| ==> rs[i].cumQty < rs[j].cumQty)
  {
    hide Total, Notional, Average, AddsUp;
    var rs := Reports(id, qty, ts);
    forall i | 0 <= i < |rs|
      ensures AddsUp(rs[i], id, qty)
    {
      ReportAddsUp(id, qty, ts, i);
    }
    forall i, j | 0 <= i < j < |ts|
      ensures rs[i].cumQty < rs[j].cumQty
    {
      TotalGrows(ts, i + 1, j + 1);
      assert rs[i] == TradeReport(id, qty, ts, i) && rs[j] == TradeReport(id, qty, ts, j);
    }
  }

  /** The fill status and the last open quantity, for the trades a book actually makes. */
  lemma LastReport(id: nat, qty: int, ts: seq<Trade>)
    requires PositiveTrades(ts) && 0 <= Total(ts) <= qty
    ensures var rs := Reports(id, qty, ts);
            && rs[|rs| - 1].leavesQty == qty - Total(ts)
            && (forall i :: 0 <= i < |rs| ==>
                  (rs[i].execType == FullFill <==> i == |rs| - 1 && qty > 0 && qty == Total(ts)))
  {
    hide Total, Notional, Average;
    var rs := Reports(id, qty, ts);
    LastLeaves(id, qty, ts);
    forall i | 0 <= i < |rs|
      ensures rs[i].execType == FullFill <==> i == |rs| - 1 && qty > 0 && qty == Total(ts)
    {
      FillsOnlyLast(id, qty, ts, i);
    }
  }

  lemma LastLeaves(id: nat, qty: int, ts: seq<Trade>)
    requires 0 <= Total(ts) <= qty
    ensures var rs := Reports(id, qty, ts);
            rs[|rs| - 1].leavesQty == qty - Total(ts)
  {
    assert ts[..|ts|] == ts;
  }

  lemma FillsOnlyLast(id: nat, qty: int, ts: seq<Trade>, i: nat)
    requires PositiveTrades(ts) && 0 <= Total(ts) <= qty && i < |Reports(id, qty, ts)|
    ensures Reports(id, qty, ts)[i].execType == FullFill
            <==> i == |Reports(id, qty, ts)| - 1 && qty > 0 && qty == Total(ts)
  {
    assert ts == [] ==> Total(ts) == 0;
    hide Total, Notional, Average, Reports;
    ReportsAre(id, qty, ts, i);
    if i < |ts| {
      assert ts[..|ts|] == ts;
      TotalGrows(ts, 0, i + 1);
    }
  }

  /**
    Execution reports agree with the book: an order of quantity `qty` is reported with
    CumQty + LeavesQty = OrderQty throughout and CumQty strictly increasing over its trades; FILL is
    reported last or not at all, exactly when a positive quantity was wanted and nothing of it is
    open; and the last LeavesQty is what rests under the id, unless nothing crossed and the pool was
    exhausted.
   */
  lemma ReportsAgreeWithBook(b: Book, side: Side, price: int, qty: int)
    requires Inv(b) && qty >= 0
    ensures var r := Place(b, side, price, qty);
            var rs := Reports(r.id, qty, r.trades);
            && |rs| >= 1 && |rs| >= |r.trades|
            && (forall i :: 0 <= i < |rs| ==>
                  && rs[i].orderId == r.id && rs[i].orderQty == qty as real
                  && rs[i].cumQty + rs[i].leavesQty == qty)
            && (forall i, j :: 0 <= i < j < |r.trades| ==> rs[i].cumQty < rs[j].cumQty)
            && (forall i :: 0 <= i < |rs| ==>
                  (rs[i].execType == FullFill <==>
                     i == |rs| - 1 && qty > 0 && Resting(r.book, r.id) == 0 && r.dropped == 0))
            && (rs[|rs| - 1].leavesQty == Resting(r.book, r.id) <==>
                  !(qty > 0 && b.free == 0 && CrossingQty(SideOf(b, side.Opposite()), side, price) == 0))
  {
    hide Place, Inv, Resting, Reports, CrossingQty;
    var r := Place(b, side, price, qty);
    RestingOfNew(b, side, price, qty);
    ReportsAddUp(r.id, qty, r.trades);
    LastReport(r.id, qty, r.trades);
    DroppedOnlyWithoutTrades(b, side, price, qty);
    PlaceKeepsInv(b, side, price, qty);
    RestsHasQty(r.book, r.id);
    DroppedSign(b, side, price, qty);
  }

  /** One slot, and a bid in it: a second bid for 7 is reported open in full, and nothing of it rests. */
  lemma LeavesCanExceedWhatRests()
    ensures var b := Place(Empty(1), Buy, 100, 5).book;
            var r := Place(b, Buy, 100, 7);
            var rs := Reports(r.id, 7, r.trades);
            |rs| >= 1 && rs[|rs| - 1].leavesQty == 7 && Resting(r.book, r.id) == 0
  {
    var b := Place(Empty(1), Buy, 100, 5).book;
    assert b == Book([Order(1, Buy, 100, 5, 1)], [], 2, 2, 0);
    var r := Place(b, Buy, 100, 7);
    assert r == Placement(b.(nextId := 3), 2, [], 7);
    assert [Order(1, Buy, 100, 5, 1)][1..] == [];
  }

  lemma DroppedSign(b: Book, side: Side, price: int, qty: int)
    ensures Place(b, side, price, qty).dropped >= 0
  {
  }

  // ----- what a report tells of its trade -----

  /** Price times quantity, summed over the first `n` reports. */
  function ReportedCost(rs: seq<Report>, n: nat): real
    requires n <= |rs|
  {
    if n == 0 then 0.0 else ReportedCost(rs, n - 1) + rs[n - 1].lastPx * rs[n - 1].lastQty as real
  }

  lemma {:induction false} ReportedCostIs(id: nat, qty: int, ts: seq<Trade>, n: nat)
    requires n <= |ts| <= |Reports(id, qty, ts)|
    ensures ReportedCost(Reports(id, qty, ts), n) == Notional(ts[..n])
  {
    hide Reports, Notional;
    if n == 0 {
      EmptySums(ts);
    } else {
      ReportedCostIs(id, qty, ts, n - 1);
      ReportsAre(id, qty, ts, n - 1);
      TotalUpTo(ts, n - 1);
      CostIs(ts[n - 1].price, ts[n - 1].qty);
    }
  }

  lemma AverageTimes(n: real, q: int)
    requires q > 0
    ensures Average(n, q) * q as real == n
  {
  }

  lemma PxTimes(ticks: int)
    ensures Px(ticks) * 100.0 == ticks as real
  {
  }

  /** Report `k` is of trade `t`: its quantity and price, the running total, and the mean price so far. */
  predicate TellsTrade(rs: seq<Report>, k: nat, t: Trade)
    requires k < |rs|
  {
    && rs[k].lastQty == t.qty && rs[k].lastPx * 100.0 == t.price as real
    && rs[k].cumQty == (if k == 0 then 0 else rs[k - 1].cumQty) + t.qty
    && rs[k].avgPx * rs[k].cumQty as real == ReportedCost(rs, k + 1)
    && rs[k].ordStatus == rs[k].execType && (rs[k].execType == FullFill || rs[k].execType == PartialFill)
  }

  /** A report of something open, not of a trade. */
  predicate TellsRemainder(r: Report, cum: int) {
    && r.lastQty == 0 && r.lastPx == 0.0 && r.avgPx == 0.0
    && r.execType == New && r.ordStatus == (if cum == 0 then New else PartialFill)
  }

  lemma TradeIsTold(id: nat, qty: int, ts: seq<Trade>, k: nat)
    requires PositiveTrades(ts) && k < |ts| <= |Reports(id, qty, ts)|
    ensures TellsTrade(Reports(id, qty, ts), k, ts[k])
  {
    hide Reports, Notional, Total, Average, Px;
    ReportsAre(id, qty, ts, k);
    ReportedCostIs(id, qty, ts, k + 1);
    TotalUpTo(ts, k);
    TotalGrows(ts, 0, k + 1);
    AverageTimes(Notional(ts[..k + 1]), Total(ts[..k + 1]));
    PxTimes(ts[k].price);
    EmptySums(ts);
    if k > 0 {
      ReportsAre(id, qty, ts, k - 1);
    }
  }

  lemma RemainderIsTold(id: nat, qty: int, ts: seq<Trade>)
    requires PositiveTrades(ts) && |Reports(id, qty, ts)| > |ts|
    ensures TellsRemainder(Reports(id, qty, ts)[|ts|], Total(ts))
  {
    if ts != [] {
      TotalGrows(ts, 0, |ts|);
      assert ts[..|ts|] == ts;
    }
  }

  /**
    The reports of a placement tell its trades one by one: report `k` is for the `k`-th maker in
    priority, at that maker's price and for all of its quantity, except perhaps the last; the filled
    quantity runs up by it, and the average price is the mean over the reports so far. Anything open is
    told last, by a report that carries no trade.
   */
  lemma ReportsTellTheTrades(b: Book, side: Side, price: int, qty: int)
    requires Inv(b)
    ensures var r := Place(b, side, price, qty);
            var rs, q, n := Reports(r.id, qty, r.trades), SideOf(b, side.Opposite()), |r.trades|;
            && n <= |q| && n <= |rs| <= n + 1
            && (forall k :: 0 <= k < n ==>
                  && TellsTrade(rs, k, r.trades[k])
                  && rs[k].lastPx * 100.0 == q[k].price as real
                  && (if k < n - 1 then rs[k].lastQty == q[k].qty else 0 < rs[k].lastQty <= q[k].qty))
            && (|rs| > n ==> TellsRemainder(rs[n], Total(r.trades)))
  {
    hide Place, Inv, Reports, TellsTrade, TellsRemainder;
    var r := Place(b, side, price, qty);
    var rs, n := Reports(r.id, qty, r.trades), |r.trades|;
    PriceTimePriority(b, side, price, qty);
    TradesCross(b, side, price, qty);
    ReportsLength(r.id, qty, r.trades);
    forall k | 0 <= k < n
      ensures TellsTrade(rs, k, r.trades[k])
    {
      TradeIsTold(r.id, qty, r.trades, k);
    }
    TradesTold(rs, r.trades);
    if |rs| > n {
      RemainderIsTold(r.id, qty, r.trades);
    }
  }

  lemma TradesTold(rs: seq<Report>, ts: seq<Trade>)
    requires |ts| <= |rs| && forall k :: 0 <= k < |ts| ==> TellsTrade(rs, k, ts[k])
    ensures forall k :: 0 <= k < |ts| ==> rs[k].lastQty == ts[k].qty && rs[k].lastPx * 100.0 == ts[k].price as real
  {
  }

  lemma ReportsLength(id: nat, qty: int, ts: seq<Trade>)
    ensures |ts| <= |Reports(id, qty, ts)| <= |ts| + 1
  {
  }

  // ----- the average price -----

  lemma CostAdds(p: int, a: int, b: int)
    ensures Cost(p, a + b) == Cost(p, a) + Cost(p, b)
  {
    assert (a + b) as real == a as real + b as real;
    Distributes(Px(p), a as real, b as real);
  }

  lemma Distributes(x: real, a: real, b: real)
    ensures x * (a + b) == x * a + x * b
  {
  }

  lemma CostOrdered(p: int, r: int, q: int)
    requires p <= r && q >= 0
    ensures Cost(p, q) <= Cost(r, q)
  {
    assert Px(r) - Px(p) == (r - p) as real / 100.0;
    Distributes(q as real, Px(r) - Px(p), Px(p));
    assert q as real * (Px(r) - Px(p)) >= 0.0;
  }

  lemma {:induction false} NotionalBound(ts: seq<Trade>, k: nat, side: Side, limit: int)
    requires k <= |ts| && PositiveTrades(ts)
    requires forall i :: 0 <= i < |ts| ==> Crosses(side, limit, ts[i].price)
    ensures side.Buy? ==> Notional(ts[..k]) <= Cost(limit, Total(ts[..k]))
    ensures side.Sell? ==> Notional(ts[..k]) >= Cost(limit, Total(ts[..k]))
  {
    if k > 0 {
      hide Notional, Total, Cost;
      var t := ts[k - 1];
      NotionalBound(ts, k - 1, side, limit);
      TotalUpTo(ts, k - 1);
      CostAdds(limit, Total(ts[..k - 1]), t.qty);
      assert Crosses(side, limit, t.price) && t.qty > 0;
      if side.Buy? {
        CostOrdered(t.price, limit, t.qty);
      } else {
        CostOrdered(limit, t.price, t.qty);
      }
    }
  }

  /** The reported average price never breaks the order's limit. */
  lemma AverageWithinLimit(b: Book, side: Side, price: int, qty: int, k: nat)
    requires Inv(b) && k < |Place(b, side, price, qty).trades|
    ensures var r := Place(b, side, price, qty);
            var avg := TradeReport(r.id, qty, r.trades, k).avgPx;
            if side.Buy? then avg <= Px(price) else avg >= Px(price)
  {
    hide Notional, Total, Cost, Average, Place;
    var r := Place(b, side, price, qty);
    TradesCross(b, side, price, qty);
    NotionalBound(r.trades, k + 1, side, price);
    TotalGrows(r.trades, 0, k + 1);
    AverageOrdered(Notional(r.trades[..k + 1]), price, Total(r.trades[..k + 1]));
    assert TradeReport(r.id, qty, r.trades, k).avgPx
           == Average(Notional(r.trades[..k + 1]), Total(r.trades[..k + 1]));
  }

  lemma TradesCross(b: Book, side: Side, price: int, qty: int)
    requires Inv(b)
    ensures var ts := Place(b, side, price, qty).trades;
            PositiveTrades(ts) && forall i :: 0 <= i < |ts| ==> Crosses(side, price, ts[i].price)
  {
    PriceTimePriority(b, side, price, qty);
  }

  lemma AverageOrdered(n: real, p: int, q: int)
    requires q > 0
    ensures n <= Cost(p, q) ==> Average(n, q) <= Px(p)
    ensures n >= Cost(p, q) ==> Average(n, q) >= Px(p)
  {
    DivideThrough(n, Px(p), q as real);
  }

  lemma DivideThrough(n: real, p: real, q: real)
    requires q > 0.0
    ensures n <= p * q ==> n / q <= p
    ensures n >= p * q ==> n / q >= p
  {
    var d := n / q;
    assert d * q == n;
    if d > p {
      assert (d - p) * q > 0.0;
    } else if d < p {
      assert (p - d) * q > 0.0;
    }
  }
}
