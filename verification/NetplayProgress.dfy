/** Loss-free runs: no deadlock, a bound on the number of moves, and how far apart the seats can drift. */
module NetplayProgress {
  import opened Commands
  import opened Envelope
  import opened Headless
  import opened Lockstep
  import opened Streams
  import opened SeatInvariant
  import opened Netplay
  import opened NetplaySafety
  import opened NetplayTheorems

  predicate Listening(x: Side) {
    x.proc.Up? && !x.proc.holding
  }

  /** Both seats running, neither lost to the other. */
  ghost predicate Together(u: Setup, x: Side, y: Side) {
    PairOk(u, x, y) && Listening(x) && Listening(y) && DataOnly(x.inbox) && DataOnly(y.inbox)
  }

  lemma TogetherIsSymmetric(u: Setup, x: Side, y: Side)
    requires Together(u, x, y)
    ensures Together(u, y, x)
  {
    hide SeatOk;
  }

  /** Where two running seats stand within the run. */
  lemma TogetherBounds(u: Setup, x: Side, y: Side)
    requires Together(u, x, y)
    ensures y.role == Other(x.role)
    ensures forall c :: c in {x.proc.core, y.proc.core} ==>
              c.maxSteps == u.maxSteps && c.step <= c.nextSample <= u.maxSteps && c.step <= c.peerNext <= u.maxSteps
    ensures |x.sampled| == x.proc.core.nextSample && |y.sampled| == y.proc.core.nextSample
  {
    hide Stream, Agrees, Buffers;
  }

  predicate IsLossless(a: Action) {
    a.Pump? || a.Deliver? || a.Advance?
  }

  lemma LosslessKeepsTogether(u: Setup, x: Side, y: Side, a: Action)
    requires Together(u, x, y) && IsLossless(a)
    ensures var (x', y') := Act(u.game, x, y, a); Together(u, x', y')
  {
    hide PairOk, DoReceive;
    match a
    case Pump(feed) =>
      PumpKeeps(u, x, y, feed);
      PumpIsData(x.proc.core, feed);
    case Deliver =>
      if x.inbox != [] {
        DataKeeps(u, x, y);
        DataAccepted(u, x, y);
      }
    case Advance => AdvanceKeeps(u, x, y);
  }

  /// Deadlock freedom

  predicate NothingToPump(c: Core) {
    SampleEnd(c) == c.nextSample
  }

  lemma EndedForBoth(u: Setup, x: Side, y: Side)
    requires Together(u, x, y) && y.proc.core.ended && y.proc.core.step <= x.proc.core.step
    ensures var a, b := x.proc.core, y.proc.core;
            u.game.ended(Exec(u.game, u.start, MergedHistory(a.role, x.sampled, y.sampled, a.step)[..b.step]).run.sim)
  {
    var a, b := x.proc.core, y.proc.core;
    MergedHistoryPrefix(a.role, x.sampled, y.sampled, a.step, b.step);
    MergedHistoryOfOther(a.role, x.sampled, y.sampled, b.step);
  }

  /** A seat never runs past the step at which its peer saw the simulation end. */
  lemma NobodyOutrunsAnEndedSeat(u: Setup, x: Side, y: Side)
    requires Together(u, x, y) && y.proc.core.ended
    ensures x.proc.core.step <= y.proc.core.step
  {
    if y.proc.core.step <= x.proc.core.step {
      EndedForBoth(u, x, y);
    }
  }

  lemma SeatBehindIsReady(u: Setup, x: Side, y: Side)
    requires Together(u, x, y) && x.inbox == [] && NothingToPump(x.proc.core) && !x.proc.core.Finished()
    requires y.proc.core.Finished() || (x.proc.core.step <= y.proc.core.step && NothingToPump(y.proc.core))
    ensures x.proc.core.Ready()
  {
    assert x.proc.core.peerNext == |y.sampled|;
    if y.proc.core.ended {
      NobodyOutrunsAnEndedSeat(u, x, y);
    }
  }

  /** No deadlock: once both seats have pumped and both inboxes are drained, some unfinished seat can
      execute a tick or mark itself ended. */
  lemma NoDeadlock(u: Setup, x: Side, y: Side)
    requires Together(u, x, y) && x.inbox == [] && y.inbox == []
    requires NothingToPump(x.proc.core) && NothingToPump(y.proc.core)
    requires !x.proc.core.Finished() || !y.proc.core.Finished()
    ensures x.proc.core.Ready() || y.proc.core.Ready()
  {
    if x.proc.core.Finished() || (!y.proc.core.Finished() && y.proc.core.step < x.proc.core.step) {
      SeatBehindIsReady(u, y, x);
    } else {
      SeatBehindIsReady(u, x, y);
    }
  }

  /// A bound on runs

  /** Messages and ticks still to be sampled, for a seat whose feed is `feed`. */
  function Unsampled(feed: nat -> seq<Command>, lo: nat, hi: nat): nat
    requires lo <= hi
  {
    if lo == hi then 0 else Unsampled(feed, lo, hi - 1) + |feed(hi - 1)| + 1
  }

  lemma {:induction false} UnsampledSplits(feed: nat -> seq<Command>, lo: nat, mid: nat, hi: nat)
    requires lo <= mid <= hi
    ensures Unsampled(feed, lo, hi) == Unsampled(feed, lo, mid) + Unsampled(feed, mid, hi)
  {
    if mid < hi {
      UnsampledSplits(feed, lo, mid, hi - 1);
    }
  }

  lemma {:induction false} CommandsOutLength(at: nat, cmds: seq<Command>)
    ensures |CommandsOut(at, cmds)| == |cmds|
  {
    if cmds != [] {
      CommandsOutLength(at, cmds[..|cmds| - 1]);
    }
  }

  lemma {:induction false} TicksOutLength(feed: nat -> seq<Command>, lo: nat, hi: nat)
    requires lo <= hi
    ensures |TicksOut(feed, lo, hi)| + (hi - lo) == Unsampled(feed, lo, hi)
  {
    if lo < hi {
      TicksOutLength(feed, lo, hi - 1);
      CommandsOutLength(hi - 1, feed(hi - 1));
    }
  }

  /** What one seat has left to do: ticks to sample, messages to read, ticks to execute, an end to mark. */
  function Work(u: Setup, x: Side, feed: nat -> seq<Command>): nat
    requires x.proc.Up? && x.proc.core.nextSample <= u.maxSteps && x.proc.core.step <= u.maxSteps
  {
    var c := x.proc.core;
    2 * Unsampled(feed, c.nextSample, u.maxSteps) + |x.inbox| + (u.maxSteps - c.step) + if c.ended then 0 else 1
  }

  lemma {:induction false} AdvanceWorks(u: Setup, c: Core)
    requires c.maxSteps == u.maxSteps && c.step <= c.maxSteps
    ensures var c' := Advanced(u.game, c);
            && c'.maxSteps == c.maxSteps && c'.step <= c'.maxSteps
            && (c' != c ==> c.Ready())
            && (c.Ready() ==>
                 (c'.maxSteps - c'.step) + (if c'.ended then 0 else 1)
                 < (c.maxSteps - c.step) + (if c.ended then 0 else 1))
    decreases if c.ended then 0 else 1, c.maxSteps - c.step
  {
    if c.Ready() {
      AdvanceWorks(u, AdvanceOnce(u.game, c));
    }
  }

  lemma PumpOutputSize(c: Core, feed: nat -> seq<Command>)
    requires !NothingToPump(c)
    ensures |PumpOutput(c, feed)| < 2 * Unsampled(feed, c.nextSample, SampleEnd(c))
  {
    TicksOutLength(feed, c.nextSample, SampleEnd(c));
  }

  lemma IdlePump(x: Side, y: Side, feed: nat -> seq<Command>)
    requires Listening(x) && y.proc.Up? && NothingToPump(x.proc.core)
    ensures DoPump(x, y, feed) == (x, y)
  {
    assert Msgs([]) == [];
    assert x.sampled + [] == x.sampled && y.inbox + [] == y.inbox;
  }

  lemma PumpWorks(u: Setup, x: Side, y: Side, feed: nat -> seq<Command>, other: nat -> seq<Command>)
    requires Together(u, x, y) && !NothingToPump(x.proc.core)
    ensures var (x', y') := DoPump(x, y, feed);
            && x'.proc.core.nextSample <= u.maxSteps
            && Work(u, x', feed) + Work(u, y', other) < Work(u, x, feed) + Work(u, y, other)
  {
    var c := x.proc.core;
    PumpOk(u, c, x.sampled, y.sampled, feed);
    UnsampledSplits(feed, c.nextSample, SampleEnd(c), u.maxSteps);
    PumpOutputSize(c, feed);
  }

  /** Every lossless action either changes nothing or leaves less to do. */
  lemma EveryMoveIsProgress(u: Setup, x: Side, y: Side, a: Action, feed: nat -> seq<Command>,
                            other: nat -> seq<Command>)
    requires Together(u, x, y) && IsLossless(a) && (a.Pump? ==> a.feed == feed)
    ensures var (x', y') := Act(u.game, x, y, a);
            && Together(u, x', y')
            && ((x', y') == (x, y) || Work(u, x', feed) + Work(u, y', other) < Work(u, x, feed) + Work(u, y, other))
  {
    LosslessKeepsTogether(u, x, y, a);
    match a
    case Pump(_) =>
      if NothingToPump(x.proc.core) {
        IdlePump(x, y, feed);
      } else {
        PumpWorks(u, x, y, feed, other);
      }
    case Deliver => DeliverWorks(u, x, y, feed);
    case Advance => AdvanceWorks(u, x.proc.core);
  }

  lemma DeliverWorks(u: Setup, x: Side, y: Side, feed: nat -> seq<Command>)
    requires Together(u, x, y)
    ensures var (x', y') := DoDeliver(u.game, x, y);
            && y' == y
            && (x.inbox != [] ==> x'.proc.Up? && x'.proc.core.nextSample == x.proc.core.nextSample
                                  && x'.proc.core.step == x.proc.core.step && Work(u, x', feed) < Work(u, x, feed))
            && (x.inbox == [] ==> x' == x)
  {
    if x.inbox != [] {
      assert IsData(x.inbox[0]);
      DataAccepted(u, x, y);
    }
  }

  /// Whole runs

  /** Seat `r` always reads its input from `feeds(r)`, and nothing is ever lost. */
  ghost predicate LosslessRun(feeds: Role -> (nat -> seq<Command>), moves: seq<Move>) {
    forall i :: 0 <= i < |moves| ==>
      IsLossless(moves[i].action) && (moves[i].action.Pump? ==> moves[i].action.feed == feeds(moves[i].role))
  }

  ghost predicate WorldTogether(u: Setup, w: World) {
    w.infiltrator.role == Infiltrator && Together(u, w.infiltrator, w.hacker)
  }

  ghost function WorldWork(u: Setup, w: World, feeds: Role -> (nat -> seq<Command>)): nat
    requires WorldTogether(u, w)
  {
    Work(u, w.infiltrator, feeds(Infiltrator)) + Work(u, w.hacker, feeds(Hacker))
  }

  /** How many moves of a run changed anything. */
  ghost function EffectiveMoves(g: Game, w: World, moves: seq<Move>): nat {
    if moves == [] then 0
    else
      var before := RunMoves(g, w, moves[..|moves| - 1]);
      EffectiveMoves(g, w, moves[..|moves| - 1]) + if Next(g, before, moves[|moves| - 1]) != before then 1 else 0
  }

  /** A loss-free run makes at most as many effective moves as there was work at its start. */
  lemma {:induction false} RunsAreBounded(u: Setup, delayI: nat, delayH: nat, feeds: Role -> (nat -> seq<Command>),
                                          moves: seq<Move>)
    requires LosslessRun(feeds, moves)
    ensures var w0 := FreshWorld(u, delayI, delayH);
            var w := RunMoves(u.game, w0, moves);
            && WorldTogether(u, w0) && WorldTogether(u, w)
            && EffectiveMoves(u.game, w0, moves) + WorldWork(u, w, feeds) <= WorldWork(u, w0, feeds)
  {
    var w0 := FreshWorld(u, delayI, delayH);
    FreshWorldOk(u, delayI, delayH);
    if moves != [] {
      var n := |moves| - 1;
      RunsAreBounded(u, delayI, delayH, feeds, moves[..n]);
      OneMoveIsProgress(u, RunMoves(u.game, w0, moves[..n]), moves[n], feeds);
    }
  }

  lemma OneMoveIsProgress(u: Setup, w: World, m: Move, feeds: Role -> (nat -> seq<Command>))
    requires WorldTogether(u, w) && IsLossless(m.action)
    requires m.action.Pump? ==> m.action.feed == feeds(m.role)
    ensures var w' := Next(u.game, w, m);
            && WorldTogether(u, w')
            && WorldWork(u, w', feeds) + (if w' != w then 1 else 0) <= WorldWork(u, w, feeds)
  {
    var x, y := w.Get(m.role), w.Get(Other(m.role));
    var x', y' := Act(u.game, x, y, m.action).0, Act(u.game, x, y, m.action).1;
    EveryMoveIsProgress(u, x, y, m.action, feeds(m.role), feeds(Other(m.role)));
    assert Next(u.game, w, m) == w.Put(m.role, x', y');
    ActKeepsRoles(u, x, y, m.action);
    WorldFromPair(u, m.role, x, y);
    WorldFromPair(u, m.role, x', y');
  }

  lemma ActKeepsRoles(u: Setup, x: Side, y: Side, a: Action)
    ensures Act(u.game, x, y, a).0.role == x.role
  {
    OnlyPumpsSample(u.game, x, y, a);
  }

  lemma WorldFromPair(u: Setup, r: Role, x: Side, y: Side)
    requires Together(u, x, y) && x.role == r
    ensures var w := World(if r == Infiltrator then x else y, if r == Infiltrator then y else x);
            WorldTogether(u, w) && w.Get(r) == x && w.Get(Other(r)) == y
  {
  }

  /** A loss-free world in which no move changes anything is one both seats have finished. */
  lemma StuckMeansFinished(u: Setup, w: World, feeds: Role -> (nat -> seq<Command>))
    requires WorldTogether(u, w)
    requires forall r: Role :: Next(u.game, w, Move(r, Pump(feeds(r)))) == w
    requires forall r: Role :: Next(u.game, w, Move(r, Deliver)) == w
    requires forall r: Role :: Next(u.game, w, Move(r, Advance)) == w
    ensures w.infiltrator.proc.core.Finished() && w.hacker.proc.core.Finished()
  {
    StuckSeat(u, w, feeds, Infiltrator);
    StuckSeat(u, w, feeds, Hacker);
    if !w.infiltrator.proc.core.Finished() || !w.hacker.proc.core.Finished() {
      NoDeadlock(u, w.infiltrator, w.hacker);
    }
  }

  lemma StuckSeat(u: Setup, w: World, feeds: Role -> (nat -> seq<Command>), r: Role)
    requires WorldTogether(u, w)
    requires Next(u.game, w, Move(r, Pump(feeds(r)))) == w
    requires Next(u.game, w, Move(r, Deliver)) == w
    requires Next(u.game, w, Move(r, Advance)) == w
    ensures var x := w.Get(r); x.inbox == [] && NothingToPump(x.proc.core) && !x.proc.core.Ready()
  {
    var x, y := w.Get(r), w.Get(Other(r));
    if !NothingToPump(x.proc.core) {
      PumpWorks(u, x, y, feeds(r), feeds(Other(r)));
    }
    DeliverWorks(u, x, y, feeds(r));
    AdvanceWorks(u, x.proc.core);
  }

  /// Drift

  /** A seat's sample head, against the floor it was given by an adopted resync (0 for a fresh seat). */
  predicate HeadBounded(c: Core, floor: nat) {
    c.nextSample <= Max(floor, c.step + c.inputDelay + 1)
  }

  lemma {:induction false} AdvanceKeepsHead(g: Game, c: Core, floor: nat)
    requires HeadBounded(c, floor)
    ensures HeadBounded(Advanced(g, c), floor)
    ensures Advanced(g, c).inputDelay == c.inputDelay
    decreases if c.ended then 0 else 1, c.maxSteps - c.step
  {
    if c.Ready() {
      AdvanceKeepsHead(g, AdvanceOnce(g, c), floor);
    }
  }

  lemma DeliverKeepsHead(g: Game, x: Side, y: Side, floor: nat)
    requires x.proc.Up? && HeadBounded(x.proc.core, floor)
    ensures var x' := DoDeliver(g, x, y).0; x'.proc.Up? ==> HeadBounded(x'.proc.core, floor)
  {
  }

  /** Whatever a seat does, its sample head stays within its delay of its step, or at its floor. */
  lemma HeadStaysBounded(g: Game, x: Side, y: Side, a: Action, floor: nat)
    requires x.proc.Up? && HeadBounded(x.proc.core, floor)
    ensures var x' := Act(g, x, y, a).0; x'.proc.Up? ==> HeadBounded(x'.proc.core, floor)
  {
    match a
    case Pump(_) =>
    case Deliver => DeliverKeepsHead(g, x, y, floor);
    case Advance => AdvanceKeepsHead(g, x.proc.core, floor);
    case _ =>
  }

  /** An adopted seat's head is its floor: the survivor's watermark. */
  lemma AdoptedHead(g: Game, role: Role, inputDelay: nat, r: Resync)
    requires AdoptResync(g, role, inputDelay, r).Success?
    ensures HeadBounded(AdoptResync(g, role, inputDelay, r).value, r.yourNext)
  {
  }

  /** The watermark seat `r` last adopted in a run: 0 until it has adopted one. */
  function FloorOf(g: Game, w0: World, moves: seq<Move>, r: Role): nat {
    if moves == [] then 0
    else
      var front, last := moves[..|moves| - 1], moves[|moves| - 1];
      var x := RunMoves(g, w0, front).Get(r);
      if last == Move(r, Deliver) && x.proc.Joining? && x.inbox != [] && x.inbox[0].ResyncMsg?
      then x.inbox[0].resync.yourNext else FloorOf(g, w0, front, r)
  }

  lemma PeerActsElsewhere(g: Game, x: Side, y: Side, a: Action)
    ensures Act(g, x, y, a).1.proc == y.proc
  {
  }

  lemma OnlyAdoptionRevives(g: Game, x: Side, y: Side, a: Action)
    requires !x.proc.Up?
    ensures var x' := Act(g, x, y, a).0;
            x'.proc.Up? ==> a.Deliver? && x.proc.Joining? && x.inbox != [] && x.inbox[0].ResyncMsg?
                            && HeadBounded(x'.proc.core, x.inbox[0].resync.yourNext)
  {
    if a.Deliver? && x.proc.Joining? && x.inbox != [] && x.inbox[0].ResyncMsg? {
      var r := x.inbox[0].resync;
      if AdoptResync(g, x.role, x.inputDelay, r).Success? {
        AdoptedHead(g, x.role, x.inputDelay, r);
      }
    }
  }

  /** In every run, losses and recoveries of either seat included, the sample head of a running seat is
      within its delay of its step, or where the hand-off it last adopted had put it. */
  lemma {:induction false} HeadsStayBounded(g: Game, w0: World, moves: seq<Move>, r: Role)
    requires w0.Get(r).proc.Up? && HeadBounded(w0.Get(r).proc.core, 0)
    ensures var x := RunMoves(g, w0, moves).Get(r); x.proc.Up? ==> HeadBounded(x.proc.core, FloorOf(g, w0, moves, r))
  {
    hide HeadBounded, Act;
    if moves != [] {
      var front, last := moves[..|moves| - 1], moves[|moves| - 1];
      var w := RunMoves(g, w0, front);
      HeadsStayBounded(g, w0, front, r);
      if last.role != r {
        PeerActsElsewhere(g, w.Get(last.role), w.Get(r), last.action);
      } else if w.Get(r).proc.Up? {
        HeadStaysBounded(g, w.Get(r), w.Get(Other(r)), last.action, FloorOf(g, w0, front, r));
      } else {
        OnlyAdoptionRevives(g, w.Get(r), w.Get(Other(r)), last.action);
      }
    }
  }

  lemma {:induction false} LosslessHeads(u: Setup, delayI: nat, delayH: nat, feeds: Role -> (nat -> seq<Command>),
                                         moves: seq<Move>)
    requires LosslessRun(feeds, moves)
    ensures var w := RunMoves(u.game, FreshWorld(u, delayI, delayH), moves);
            && WorldTogether(u, w)
            && HeadBounded(w.infiltrator.proc.core, 0) && HeadBounded(w.hacker.proc.core, 0)
            && w.infiltrator.inputDelay == delayI && w.hacker.inputDelay == delayH
  {
    RunsAreBounded(u, delayI, delayH, feeds, moves);
    if moves != [] {
      var n := |moves| - 1;
      LosslessHeads(u, delayI, delayH, feeds, moves[..n]);
      var w, r := RunMoves(u.game, FreshWorld(u, delayI, delayH), moves[..n]), moves[n].role;
      HeadStaysBounded(u.game, w.Get(r), w.Get(Other(r)), moves[n].action, 0);
      PeerHeadUntouched(u, w.Get(r), w.Get(Other(r)), moves[n].action);
    }
  }

  lemma PeerHeadUntouched(u: Setup, x: Side, y: Side, a: Action)
    requires Together(u, x, y) && IsLossless(a)
    ensures var (x', y') := Act(u.game, x, y, a);
            y'.proc == y.proc && y'.inputDelay == y.inputDelay && x'.inputDelay == x.inputDelay
  {
    if a.Deliver? {
      DeliverWorks(u, x, y, t => []);
    }
  }

  lemma {:induction false} ReadingOnlyAdds(u: Setup, x: Side, y: Side, t: nat)
    requires Together(u, x, y)
    ensures var (d, y') := WorkedThrough(u.game, x, y);
            && Together(u, d, y) && y' == y && d.inbox == [] && d.proc.core.step == x.proc.core.step
            && At(x.proc.core.peer, t) <= At(d.proc.core.peer, t)
    decreases |x.inbox|
  {
    hide PairOk;
    if x.inbox != [] {
      LosslessKeepsTogether(u, x, y, Deliver);
      DataAccepted(u, x, y);
      ReadingOnlyAdds(u, DoDeliver(u.game, x, y).0, y, t);
    }
  }

  /** A listening seat buffers only ticks from its own step up to its peer's sample head. */
  lemma BufferedTicks(u: Setup, x: Side, y: Side, t: nat)
    requires Together(u, x, y) && t in x.proc.core.peer
    ensures x.proc.core.step <= t < y.proc.core.nextSample
  {
    ReadingOnlyAdds(u, x, y, t);
    EverythingHeard(u, WorkedThrough(u.game, x, y).0, y);
    assert At(x.proc.core.peer, t) == x.proc.core.peer[t] != [];
  }

  lemma {:induction false} RangeSize(s: set<nat>, lo: nat, hi: nat)
    requires lo <= hi && forall t :: t in s ==> lo <= t < hi
    ensures |s| <= hi - lo
    decreases hi - lo
  {
    if s != {} {
      if hi - 1 in s {
        RangeSize(s - {hi - 1}, lo, hi - 1);
      } else if lo < hi {
        RangeSize(s, lo, hi - 1);
      }
    }
  }

  /** In a loss-free run neither seat is ever more than the other's delay + 1 steps ahead, each head is
      within its own delay + 1 of its step, and a peer buffer never holds more than both delays + 2 ticks. */
  lemma SeatsStayClose(u: Setup, delayI: nat, delayH: nat, feeds: Role -> (nat -> seq<Command>), moves: seq<Move>,
                       w: World)
    requires LosslessRun(feeds, moves)
    requires w == RunMoves(u.game, FreshWorld(u, delayI, delayH), moves)
    ensures w.infiltrator.proc.Up? && w.hacker.proc.Up?
    ensures var a, b := w.infiltrator.proc.core, w.hacker.proc.core;
            && a.step <= a.nextSample <= a.step + delayI + 1
            && b.step <= b.nextSample <= b.step + delayH + 1
            && a.step <= b.step + delayH + 1
            && b.step <= a.step + delayI + 1
            && |a.peer.Keys| <= delayI + delayH + 2
            && |b.peer.Keys| <= delayI + delayH + 2
  {
    LosslessHeads(u, delayI, delayH, feeds, moves);
    var x, y := w.infiltrator, w.hacker;
    var a, b := x.proc.core, y.proc.core;
    forall t | t in a.peer.Keys
      ensures a.step <= t < b.nextSample
    {
      BufferedTicks(u, x, y, t);
    }
    forall t | t in b.peer.Keys
      ensures b.step <= t < a.nextSample
    {
      BufferedTicks(u, y, x, t);
    }
    RangeSize(a.peer.Keys, a.step, Max(a.step, b.nextSample));
    RangeSize(b.peer.Keys, b.step, Max(b.step, a.nextSample));
  }
}
