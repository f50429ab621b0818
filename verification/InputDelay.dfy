/** What the input delay buys: how far ahead a pump samples, how far its peer can then go without hearing
    more, and what still holds a seat up. */
module InputDelay {
  import opened Commands
  import opened Envelope
  import opened Headless
  import opened Lockstep
  import opened Streams
  import opened SeatInvariant
  import opened Netplay
  import opened NetplaySafety
  import opened NetplayTheorems
  import opened NetplayProgress

  /// Sampling ahead

  /** A pump of a seat that is not done samples exactly up to its delay beyond its step, or to the end of the
      run, and each new tick is what the feed holds for it. A seat that is done samples nothing. */
  lemma PumpBuysTheDelay(u: Setup, x: Side, y: Side, feed: nat -> seq<Command>)
    requires PairOk(u, x, y) && Listening(x)
    ensures var c, h := x.proc.core, DoPump(x, y, feed).0.sampled;
            && (!c.ended && c.step < u.maxSteps ==>
                  |h| == Max(|x.sampled|, Min(c.step + x.inputDelay + 1, u.maxSteps)))
            && (c.ended || c.step >= u.maxSteps ==> h == x.sampled)
            && x.sampled <= h && (forall t :: |x.sampled| <= t < |h| ==> h[t] == feed(t))
            && DoPump(x, y, feed).0.proc.core.nextSample == |h|
  {
    hide Stream, Agrees, Buffers;
    var c, h := x.proc.core, DoPump(x, y, feed).0.sampled;
    forall t | |x.sampled| <= t < |h|
      ensures h[t] == feed(t)
    {
      FedAt(feed, c.nextSample, SampleEnd(c), t);
    }
  }

  /// What the peer can do with it

  /** An advance runs on to the first tick a watermark does not cover, unless the game ends first. */
  lemma {:induction false} AdvanceRunsOn(g: Game, c: Core)
    requires c.step <= c.peerNext <= c.maxSteps && c.step <= c.nextSample <= c.maxSteps
    ensures var c' := Advanced(g, c);
            && (c'.ended || c'.step == Min(c.peerNext, c.nextSample))
            && (c'.ended && !c.ended ==> g.ended(c'.run.sim))
            && c'.peerNext == c.peerNext && c'.nextSample == c.nextSample
    decreases if c.ended then 0 else 1, c.maxSteps - c.step
  {
    if c.Ready() {
      AdvanceRunsOn(g, AdvanceOnce(g, c));
    }
  }

  /** Once the peer has read what a pump sent, its watermark covers the pumping seat's step and its delay. */
  lemma PeerHearsTheDelay(u: Setup, x: Side, y: Side, feed: nat -> seq<Command>)
    requires Together(u, x, y) && !x.proc.core.ended && x.proc.core.step < u.maxSteps
    ensures var (x', y') := DoPump(x, y, feed);
            var d := WorkedThrough(u.game, y', x').0;
            && Together(u, d, x') && d.inbox == [] && d.proc.core.step == y.proc.core.step
            && d.proc.core.peerNext == |x'.sampled|
            && d.proc.core.peerNext >= Min(x.proc.core.step + x.inputDelay + 1, u.maxSteps)
  {
    hide PairOk;
    var (x', y') := DoPump(x, y, feed);
    LosslessKeepsTogether(u, x, y, Pump(feed));
    PumpedReads(u, x, y, feed);
    TogetherIsSymmetric(u, x', y');
    ReadingOnlyAdds(u, y', x', 0);
    EverythingHeard(u, WorkedThrough(u.game, y', x').0, x');
  }

  lemma PumpedReads(u: Setup, x: Side, y: Side, feed: nat -> seq<Command>)
    requires Together(u, x, y) && !x.proc.core.ended && x.proc.core.step < u.maxSteps
    ensures var (x', y') := DoPump(x, y, feed);
            && |x'.sampled| >= Min(x.proc.core.step + x.inputDelay + 1, u.maxSteps)
            && y'.proc == y.proc
  {
    hide PairOk;
    BothListen(u, x, y);
    PumpBuysTheDelay(u, x, y, feed);
  }

  lemma BothListen(u: Setup, x: Side, y: Side)
    requires Together(u, x, y)
    ensures PairOk(u, x, y) && Listening(x) && Listening(y)
  {
    hide PairOk;
  }

  /** And then, having sampled its own input, it plays on without another word from the pumping seat: as far
      as both delays reach, unless the game ends first. */
  lemma PeerPlaysOn(u: Setup, x: Side, y: Side, feed: nat -> seq<Command>, other: nat -> seq<Command>)
    requires Together(u, x, y) && !x.proc.core.ended && x.proc.core.step < u.maxSteps
    requires !y.proc.core.ended && y.proc.core.step < u.maxSteps
    ensures var (x', y') := DoPump(x, y, feed);
            var d := WorkedThrough(u.game, y', x').0;
            && d.proc.Up?
            && var c := Advanced(u.game, DoPump(d, x', other).0.proc.core);
               var mine, theirs := y.proc.core.step + y.inputDelay + 1, x.proc.core.step + x.inputDelay + 1;
               u.game.ended(c.run.sim) || c.step >= Min(Min(mine, theirs), u.maxSteps)
  {
    hide PairOk;
    var (x', y') := DoPump(x, y, feed);
    var d := WorkedThrough(u.game, y', x').0;
    PeerHearsTheDelay(u, x, y, feed);
    ReadingKeepsTheSeat(u, x, y, feed);
    BothListen(u, d, x');
    PumpBuysTheDelay(u, d, x', other);
    LosslessKeepsTogether(u, d, x', Pump(other));
    var e := DoPump(d, x', other);
    TogetherBounds(u, e.0, e.1);
    AdvanceRunsOn(u.game, e.0.proc.core);
  }

  lemma ReadingKeepsTheSeat(u: Setup, x: Side, y: Side, feed: nat -> seq<Command>)
    requires Together(u, x, y)
    ensures var (x', y') := DoPump(x, y, feed);
            var d := WorkedThrough(u.game, y', x').0;
            d.proc.Up? && d.inputDelay == y.inputDelay && d.proc.core.ended == y.proc.core.ended
            && d.proc.core.step == y.proc.core.step
  {
    hide PairOk;
    var (x', y') := DoPump(x, y, feed);
    LosslessKeepsTogether(u, x, y, Pump(feed));
    TogetherIsSymmetric(u, x', y');
    ReadingTouches(u, y', x');
  }

  lemma {:induction false} ReadingTouches(u: Setup, x: Side, y: Side)
    requires Together(u, x, y)
    ensures var d := WorkedThrough(u.game, x, y).0;
            d.proc.Up? && d.inputDelay == x.inputDelay && d.proc.core.ended == x.proc.core.ended
            && d.proc.core.step == x.proc.core.step
    decreases |x.inbox|
  {
    hide PairOk;
    if x.inbox != [] {
      LosslessKeepsTogether(u, x, y, Deliver);
      DataAccepted(u, x, y);
      ReadingTouches(u, DoDeliver(u.game, x, y).0, y);
    }
  }

  /** The same as a law of runs: in every state of a loss-free run, a pump of a seat that is not done lets
      its peer read up to the pumping seat's step and delay. */
  lemma DelayCoversThePeer(u: Setup, delayI: nat, delayH: nat, feeds: Role -> (nat -> seq<Command>),
                           moves: seq<Move>, w: World, r: Role)
    requires LosslessRun(feeds, moves) && w == RunMoves(u.game, FreshWorld(u, delayI, delayH), moves)
    ensures WorldTogether(u, w)
    ensures var x, y := w.Get(r), w.Get(Other(r));
            !x.proc.core.ended && x.proc.core.step < u.maxSteps ==>
              var (x', y') := DoPump(x, y, feeds(r));
              var d, delay := WorkedThrough(u.game, y', x').0, if r == Infiltrator then delayI else delayH;
              d.proc.Up? && d.proc.core.peerNext >= Min(x.proc.core.step + delay + 1, u.maxSteps)
  {
    hide Together;
    LosslessHeads(u, delayI, delayH, feeds, moves);
    var x, y := w.Get(r), w.Get(Other(r));
    TogetherIsSymmetric(u, w.infiltrator, w.hacker);
    assert x.proc.Up? by { BothListen(u, x, y); }
    if !x.proc.core.ended && x.proc.core.step < u.maxSteps {
      PeerHearsTheDelay(u, x, y, feeds(r));
      var (x', y') := DoPump(x, y, feeds(r));
      BothListen(u, WorkedThrough(u.game, y', x').0, x');
    }
  }

  /// What holds a seat up

  /** A seat that has pumped waits for nothing but its peer: it can go on, or it is blocked on the peer's
      watermark, or it is done. */
  lemma OnlyThePeerHoldsUp(u: Setup, x: Side, y: Side, feed: nat -> seq<Command>)
    requires PairOk(u, x, y) && Listening(x)
    ensures var c := DoPump(x, y, feed).0.proc.core;
            && (c.BlockedOnPeer() <==> !c.ended && c.step < u.maxSteps && c.peerNext == c.step)
            && (c.Ready() <==> !c.ended && c.step < u.maxSteps && c.peerNext > c.step)
  {
    hide Stream, Agrees, Buffers;
    PumpBuysTheDelay(u, x, y, feed);
  }

  /** Silence is taken for loss exactly by a listening seat that has sampled its next tick and waits for the
      peer's watermark; it then keeps what the peer committed and nothing else, and stops listening. */
  lemma SilenceIsLossIff(g: Game, x: Side, y: Side)
    requires Listening(x)
    ensures var x' := Act(g, x, y, Silence).0;
            var c := x.proc.core;
            if !c.ended && c.step < c.maxSteps && c.peerNext <= c.step < c.nextSample then
              && x'.proc.Up? && x'.proc.holding && x'.proc.core == c.(peer := x'.proc.core.peer)
              && forall t: nat :: At(x'.proc.core.peer, t) == if t < c.peerNext then At(c.peer, t) else []
            else x' == x
  {
  }
}
