/** The tallies a replay reports for each strategy, and the last price it shows, over every run. */
module BacktestTallies {
  import opened Orders
  import opened PriorityBook
  import opened BookInvariant
  import opened Backtest
  import opened BacktestLaws
  import opened BacktestRuns

  /** The placements `s` made. */
  function Placements(steps: seq<Step>, s: nat): nat {
    if steps == [] then 0
    else
      var last := steps[|steps| - 1];
      Placements(steps[..|steps| - 1], s) + if last.Quote? && last.strategy == s then 1 else 0
  }

  /** The cancels `s` asked for that found their order resting. */
  function Cancels(w: World, steps: seq<Step>, s: nat): nat {
    if steps == [] then 0
    else
      var n := |steps| - 1;
      Cancels(w, steps[..n], s)
      + if steps[n].Pull? && steps[n].strategy == s && Rests(Play(w, steps[..n]).book, steps[n].id) then 1 else 0
  }

  /** The price printed last, or paid last by exogenous flow: that of the last maker it reached. */
  function LastPrice(w: World, steps: seq<Step>): int {
    if steps == [] then w.lastPx
    else
      var n := |steps| - 1;
      match steps[n]
      case TradePrint(price) => price
      case Add(side, price, qty, _) =>
        var v := Play(w, steps[..n]);
        var q, k := SideOf(v.book, side.Opposite()), |TradesOf(v, side, price, qty)|;
        if 0 < k <= |q| then q[k - 1].price else LastPrice(w, steps[..n])
      case _ => LastPrice(w, steps[..n])
  }

  lemma {:induction false} DeliverTallies(accounts: seq<Standing>, cs: seq<Credit>, s: nat)
    requires s < |accounts|
    ensures var a, b := accounts[s], Deliver(accounts, cs)[s];
            b.submitted == a.submitted && b.canceled == a.canceled && b.filled == a.filled + |FillsOf(cs, s)|
  {
    if cs != [] {
      DeliverTallies(accounts, cs[..|cs| - 1], s);
    }
  }

  /** What one step from `w` to `v` adds to the tallies of `s`. */
  predicate TallyMoves(w: World, v: World, step: Step, s: nat) {
    && s < |w.accounts| == |v.accounts|
    && var a, b := w.accounts[s], v.accounts[s];
       && b.submitted == a.submitted + (if step.Quote? && step.strategy == s then 1 else 0)
       && b.canceled == a.canceled + (if step.Pull? && step.strategy == s && Rests(w.book, step.id) then 1 else 0)
       && b.filled - |FillsOf(v.credits, s)| == a.filled - |FillsOf(w.credits, s)|
  }

  lemma NextTallies(w: World, step: Step, s: nat)
    requires Knows(|w.accounts|, step) && s < |w.accounts|
    ensures TallyMoves(w, Next(w, step), step, s)
  {
    hide Place, ExoCredits, OwnCredits, Losses, Deliver, ExoRouting, Cancel, Rests, FillsOf;
    match step
    case Add(side, price, qty, extId) =>
      var cs := ExoCredits(w.routing, side, TradesOf(w, side, price, qty), |w.ops|, 0);
      DeliverTallies(w.accounts, cs, s);
      FillsAppend(w.credits, cs, s);
    case Remove(extId) =>
    case TradePrint(price) =>
    case Quote(x, side, price, qty) =>
      var cs := OwnCredits(w.routing[w.book.nextId := x], x, side, TradesOf(w, side, price, qty), |w.ops|, 0);
      DeliverTallies(Bump(w.accounts, x, 1, 0), cs, s);
      FillsAppend(w.credits, cs, s);
    case Pull(x, id) =>
  }

  /** What one step does to the last price. */
  lemma NextLastPrice(w: World, step: Step)
    requires PriorityBook.Inv(w.book)
    ensures Next(w, step).lastPx ==
            match step
            case TradePrint(price) => price
            case Add(side, price, qty, _) =>
              var q, k := SideOf(w.book, side.Opposite()), |TradesOf(w, side, price, qty)|;
              if 0 < k <= |q| then q[k - 1].price else w.lastPx
            case _ => w.lastPx
  {
    hide Place, ExoCredits, OwnCredits, Losses, Deliver, ExoRouting, Cancel, Rests;
    if step.Add? {
      PriceTimePriority(w.book, step.side, step.price, step.qty);
    }
  }

  lemma PlayLast(w: World, steps: seq<Step>)
    requires steps != []
    ensures Play(w, steps) == Next(Play(w, steps[..|steps| - 1]), steps[|steps| - 1])
  {
    hide Next;
  }

  lemma {:induction false} LastPriceIsRight(capacity: nat, strategies: nat, steps: seq<Step>)
    requires forall i :: 0 <= i < |steps| ==> Knows(strategies, steps[i])
    ensures Play(Start(capacity, strategies), steps).lastPx == LastPrice(Start(capacity, strategies), steps)
  {
    if steps == [] {
      assert Play(Start(capacity, strategies), steps) == Start(capacity, strategies);
    } else {
      hide Next, Backtest.Inv, Start, Knows, TradesOf, Play;
      var n := |steps| - 1;
      PlayLast(Start(capacity, strategies), steps);
      var v := Play(Start(capacity, strategies), steps[..n]);
      LastPriceIsRight(capacity, strategies, steps[..n]);
      PlayKeepsInv(capacity, strategies, steps[..n]);
      InvHasBook(v);
      NextLastPrice(v, steps[n]);
    }
  }

  /** The tallies of `s` after a run. */
  ghost predicate Tallied(w0: World, steps: seq<Step>, s: nat) {
    var w := Play(w0, steps);
    && s < |w.accounts|
    && w.accounts[s].submitted == Placements(steps, s) && w.accounts[s].canceled == Cancels(w0, steps, s)
    && w.accounts[s].filled == |FillsOf(w.credits, s)|
  }

  lemma StartIsTallied(capacity: nat, strategies: nat, s: nat)
    requires s < strategies
    ensures Tallied(Start(capacity, strategies), [], s)
  {
    assert Play(Start(capacity, strategies), []) == Start(capacity, strategies);
  }

  lemma TalliedOneMore(w0: World, steps: seq<Step>, s: nat)
    requires steps != [] && Tallied(w0, steps[..|steps| - 1], s)
    requires TallyMoves(Play(w0, steps[..|steps| - 1]), Play(w0, steps), steps[|steps| - 1], s)
    ensures Tallied(w0, steps, s)
  {
    hide Play, Rests, FillsOf;
  }

  lemma {:induction false} TallyIsRight(capacity: nat, strategies: nat, steps: seq<Step>, s: nat)
    requires s < strategies && forall i :: 0 <= i < |steps| ==> Knows(strategies, steps[i])
    ensures Tallied(Start(capacity, strategies), steps, s)
  {
    if steps == [] {
      StartIsTallied(capacity, strategies, s);
    } else {
      hide Next, Backtest.Inv, Start, Knows, Play, TallyMoves, Tallied;
      var n := |steps| - 1;
      PlayLast(Start(capacity, strategies), steps);
      TallyIsRight(capacity, strategies, steps[..n], s);
      PlayKeepsInv(capacity, strategies, steps[..n]);
      NextTallies(Play(Start(capacity, strategies), steps[..n]), steps[n], s);
      TalliedOneMore(Start(capacity, strategies), steps, s);
    }
  }

  /**
    Over every run: a strategy is counted one submission per placement, one cancellation per cancel
    that found its order, and one fill per credit; and the last price is the last printed or paid.
   */
  lemma TalliesAreRight(capacity: nat, strategies: nat, steps: seq<Step>)
    requires forall i :: 0 <= i < |steps| ==> Knows(strategies, steps[i])
    ensures var w0 := Start(capacity, strategies);
            && Play(w0, steps).lastPx == LastPrice(w0, steps)
            && forall s :: 0 <= s < strategies ==> Tallied(w0, steps, s)
  {
    hide Knows, Start, Play, Tallied, LastPrice;
    LastPriceIsRight(capacity, strategies, steps);
    forall s | 0 <= s < strategies
      ensures Tallied(Start(capacity, strategies), steps, s)
    {
      TallyIsRight(capacity, strategies, steps, s);
    }
  }

  lemma InvHasBook(w: World)
    requires Backtest.Inv(w)
    ensures PriorityBook.Inv(w.book)
  {
  }
}
