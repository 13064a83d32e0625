/**
  Whole replays with the market maker as the only strategy: after each event it is shown the top of
  the book as it then is.
 */
module MarketMakerRuns {
  import opened BacktestRuns
  import opened MarketMakers
  import opened MarketMakerBand

  // ----- the replay loop -----

  /** An event, and then the market maker's turn on the snapshot taken after it. */
  function Heard(c: Config, d: Desk, m: nat, event: Step): Desk
    requires c.interval > 0
  {
    var w := Next(d.world, event);
    OnTick(c, Desk(w, d.quotes), m, TopOf(w.book, w.lastPx))
  }

  function Played(c: Config, d: Desk, m: nat, events: seq<Step>): Desk
    requires c.interval > 0
  {
    if events == [] then d else Heard(c, Played(c, d, m, events[..|events| - 1]), m, events[|events| - 1])
  }

  /** The moves such a replay makes. */
  function MovesOf(c: Config, d: Desk, m: nat, events: seq<Step>): seq<Move>
    requires c.interval > 0
  {
    if events == [] then []
    else
      var n := |events| - 1;
      var w := Next(Played(c, d, m, events[..n]).world, events[n]);
      MovesOf(c, d, m, events[..n]) + [Elsewhere(events[n]), Tick(TopOf(w.book, w.lastPx))]
  }

  lemma MovedOn(c: Config, d: Desk, m: nat, ms: seq<Move>, move: Move)
    requires c.interval > 0
    ensures Replayed(c, d, m, ms + [move]) == Moved(c, Replayed(c, d, m, ms), m, move)
  {
    hide Moved;
    assert (ms + [move])[..|ms|] == ms;
  }

  lemma HeardIsTwoMoves(c: Config, d: Desk, m: nat, event: Step)
    requires c.interval > 0
    ensures var w := Next(d.world, event);
            Heard(c, d, m, event) == Moved(c, Moved(c, d, m, Elsewhere(event)), m, Tick(TopOf(w.book, w.lastPx)))
  {
    hide OnTick, Next, TopOf;
  }

  lemma FileMoves(strategies: nat, m: nat, event: Step, top: BookTop)
    requires FromFile(event)
    ensures Allowed(strategies, m, Elsewhere(event)) && Allowed(strategies, m, Tick(top))
  {
  }

  lemma {:induction false} MovesAreAllowed(c: Config, d: Desk, m: nat, strategies: nat, events: seq<Step>)
    requires c.interval > 0 && forall i :: 0 <= i < |events| ==> FromFile(events[i])
    ensures forall i :: 0 <= i < |MovesOf(c, d, m, events)| ==> Allowed(strategies, m, MovesOf(c, d, m, events)[i])
  {
    if events != [] {
      hide Next, TopOf, Allowed, Played, FromFile;
      var n := |events| - 1;
      MovesAreAllowed(c, d, m, strategies, events[..n]);
      var w := Next(Played(c, d, m, events[..n]).world, events[n]);
      FileMoves(strategies, m, events[n], TopOf(w.book, w.lastPx));
    }
  }

  /** Such a replay is one of the runs the inventory bound speaks of. */
  lemma {:induction false} PlayedIsReplayed(c: Config, d: Desk, m: nat, events: seq<Step>)
    requires c.interval > 0
    ensures Played(c, d, m, events) == Replayed(c, d, m, MovesOf(c, d, m, events))
  {
    hide Next, TopOf, Replayed, Moved, Heard;
    if events == [] {
      ReplayedNone(c, d, m);
    } else {
      var n := |events| - 1;
      PlayedIsReplayed(c, d, m, events[..n]);
      var before, p := MovesOf(c, d, m, events[..n]), Played(c, d, m, events[..n]);
      var w := Next(p.world, events[n]);
      var e, t := Elsewhere(events[n]), Tick(TopOf(w.book, w.lastPx));
      MovedOn(c, d, m, before, e);
      MovedOn(c, d, m, before + [e], t);
      assert before + [e, t] == before + [e] + [t];
      HeardIsTwoMoves(c, p, m, events[n]);
    }
  }

  lemma ReplayedNone(c: Config, d: Desk, m: nat)
    requires c.interval > 0
    ensures Replayed(c, d, m, []) == d
  {
  }

  lemma {:induction false} PlayedAppend(c: Config, d: Desk, m: nat, a: seq<Step>, b: seq<Step>)
    requires c.interval > 0
    ensures Played(c, d, m, a + b) == Played(c, Played(c, d, m, a), m, b)
  {
    hide Heard;
    if b == [] {
      assert a + b == a;
    } else {
      var n := |b| - 1;
      PlayedAppend(c, d, m, a, b[..n]);
      assert (a + b)[..|a| + n] == a + b[..n] && (a + b)[|a| + n] == b[n];
      assert Played(c, d, m, a + b) == Heard(c, Played(c, d, m, a + b[..n]), m, b[n]);
    }
  }

  lemma PlayedOne(c: Config, d: Desk, m: nat, event: Step)
    requires c.interval > 0
    ensures Played(c, d, m, [event]) == Heard(c, d, m, event)
  {
    hide Heard;
    assert [event][..0] == [];
  }

  /** So it stays in the band. */
  lemma PlayedInBand(c: Config, capacity: nat, strategies: nat, m: nat, events: seq<Step>)
    requires c.interval > 0 && m < strategies && forall i :: 0 <= i < |events| ==> FromFile(events[i])
    ensures InBand(c, Played(c, Opening(capacity, strategies), m, events), m)
  {
    hide InBand, Opening, MovesOf, Played, Replayed, Allowed, FromFile;
    PlayedIsReplayed(c, Opening(capacity, strategies), m, events);
    MovesAreAllowed(c, Opening(capacity, strategies), m, strategies, events);
    InventoryIsBounded(c, capacity, strategies, m, MovesOf(c, Opening(capacity, strategies), m, events));
  }
}
