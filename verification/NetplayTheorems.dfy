/** What the system invariant gives a player: agreement, exact inputs, recovery, and the reference run. */
module NetplayTheorems {
  import opened Wrappers
  import opened Commands
  import opened Script
  import opened Envelope
  import opened SeatSplit
  import opened SplitMerge
  import opened Headless
  import opened Lockstep
  import opened Streams
  import opened SeatInvariant
  import opened Netplay
  import opened NetplaySafety

  ghost predicate Reachable(u: Setup, delayI: nat, delayH: nat, moves: seq<Move>, w: World) {
    && AllowedRun(u.game, FreshWorld(u, delayI, delayH), moves)
    && w == RunMoves(u.game, FreshWorld(u, delayI, delayH), moves)
  }

  /// Errors

  /** Honest seats never drive each other into a protocol error, resyncs included. */
  lemma NoSeatEverCrashes(u: Setup, delayI: nat, delayH: nat, moves: seq<Move>, w: World, r: Role)
    requires Faithful(u.game) && Reachable(u, delayI, delayH, moves, w)
    ensures !w.Get(r).proc.Crashed?
  {
    EveryRunKeepsTheInvariant(u, delayI, delayH, moves);
  }

  /// Agreement

  lemma PairInvariant(u: Setup, delayI: nat, delayH: nat, moves: seq<Move>, w: World, r: Role)
    requires Faithful(u.game) && Reachable(u, delayI, delayH, moves, w)
    ensures PairOk(u, w.Get(r), w.Get(Other(r))) && w.Get(r).role == r
  {
    EveryRunKeepsTheInvariant(u, delayI, delayH, moves);
  }

  lemma {:induction false} LogsOnlyGrow(g: Game, start: Run, perTick: seq<seq<Command>>, k: nat)
    requires k <= |perTick|
    ensures Exec(g, start, perTick[..k]).run.log <= Exec(g, start, perTick).run.log
  {
    if k == |perTick| {
      assert perTick[..k] == perTick;
    } else {
      var front := perTick[..|perTick| - 1];
      LogsOnlyGrow(g, start, front, k);
      assert front[..k] == perTick[..k];
    }
  }

  /** At every reachable state a running seat is exactly where the merged sampled histories put it,
      for any input either seat ever samples, and whatever was lost on the way. */
  lemma SeatsRunTheMergedHistory(u: Setup, delayI: nat, delayH: nat, moves: seq<Move>, w: World, r: Role)
    requires Faithful(u.game) && Reachable(u, delayI, delayH, moves, w)
    requires w.Get(r).proc.Up?
    ensures var c, mine, theirs := w.Get(r).proc.core, w.Get(r).sampled, w.Get(Other(r)).sampled;
            && c.step <= |mine| && c.step <= |theirs|
            && Progress(c.run, c.held) == Exec(u.game, u.start, MergedHistory(r, mine, theirs, c.step))
  {
    PairInvariant(u, delayI, delayH, moves, w, r);
  }

  /** The two event logs never diverge: the seat behind holds a prefix of the other's log, and seats at
      the same step hold the same simulation, log and held set. */
  lemma LogsNeverDiverge(u: Setup, delayI: nat, delayH: nat, moves: seq<Move>, w: World, r: Role)
    requires Faithful(u.game) && Reachable(u, delayI, delayH, moves, w)
    requires w.Get(r).proc.Up? && w.Get(Other(r)).proc.Up?
    requires w.Get(r).proc.core.step <= w.Get(Other(r)).proc.core.step
    ensures var a, b := w.Get(r).proc.core, w.Get(Other(r)).proc.core;
            && a.run.log <= b.run.log
            && (a.step == b.step ==> a.run == b.run && a.held == b.held)
  {
    var x, y := w.Get(r), w.Get(Other(r));
    var a, b := x.proc.core, y.proc.core;
    PairInvariant(u, delayI, delayH, moves, w, r);
    MergedHistoryOfOther(r, x.sampled, y.sampled, b.step);
    var all := MergedHistory(r, x.sampled, y.sampled, b.step);
    MergedHistoryPrefix(r, x.sampled, y.sampled, b.step, a.step);
    LogsOnlyGrow(u.game, u.start, all, a.step);
  }

  /// Completeness

  /** When a tick is ready, the commands it executes are all and only those the two seats sampled for
      it, in merge order. */
  lemma ReadyTicksAreComplete(u: Setup, delayI: nat, delayH: nat, moves: seq<Move>, w: World, r: Role)
    requires Faithful(u.game) && Reachable(u, delayI, delayH, moves, w)
    requires w.Get(r).proc.Up? && w.Get(r).proc.core.Ready()
    ensures var c, mine, theirs := w.Get(r).proc.core, w.Get(r).sampled, w.Get(Other(r)).sampled;
            && c.step < |mine| && c.step < |theirs|
            && NextCommands(c) == Pair(r, mine[c.step], theirs[c.step])
  {
    PairInvariant(u, delayI, delayH, moves, w, r);
    NextIsMerged(w.Get(r).proc.core, w.Get(r).sampled, w.Get(Other(r)).sampled);
  }

  /** A running seat that works through its whole inbox. What it sends meanwhile are answers to hellos. */
  function WorkedThrough(g: Game, x: Side, y: Side): (Side, Side)
    decreases |x.inbox|
  {
    if x.inbox == [] || !x.proc.Up? then (x, y)
    else
      var (x', y') := DoDeliver(g, x, y);
      WorkedThrough(g, x', y')
  }

  /** A seat that hears from one in play: it listens, or a hello that makes it listen is queued. */
  ghost predicate WillListen(x: Side) {
    x.proc.Up? && (x.proc.holding ==> HasHello(x.inbox))
  }

  lemma OneMessageRead(u: Setup, x: Side, y: Side)
    requires Faithful(u.game) && PairOk(u, x, y) && LiveOf(u.game, y).Some? && WillListen(x) && x.inbox != []
    ensures var (x', y') := DoDeliver(u.game, x, y);
            && PairOk(u, x', y') && LiveOf(u.game, y').Some? && WillListen(x') && y'.sampled == y.sampled
            && x'.inbox == x.inbox[1..] && x'.sampled == x.sampled && x'.role == x.role
            && x'.proc.core.step == x.proc.core.step && x'.proc.core.nextSample == x.proc.core.nextSample
            && x'.proc.core.ended == x.proc.core.ended
  {
    hide LiveOk, CoreOk;
    DeliverKeeps(u, x, y);
    HelloInTail(x.inbox);
    NoticeIsAnswered(u, x, y);
    if x.inbox[0].RejoinHello? {
      SendToLive(u.game, y, [ResyncMsg(MakeResync(u.game, OnPeerLost(x.proc.core)))]);
    } else if !x.proc.holding && IsData(x.inbox[0]) {
      DataAccepted(u, x, y);
    }
  }

  lemma NoticeIsAnswered(u: Setup, x: Side, y: Side)
    requires PairOk(u, x, y) && LiveOf(u.game, y).Some? && x.proc.Up? && x.inbox != []
    ensures x.inbox[0].PeerLeft? ==> HasHello(x.inbox[1..])
  {
    hide CoreOk, Stream;
    NoticesOfTail(x.inbox);
  }

  /** While its peer is in play, a seat's peer buffer and inbox together are exactly what the peer sampled:
      once the inbox is read, the watermark stands at the peer's sample head and the buffer holds, from
      this seat's step on, the peer's commands and nothing else. */
  lemma {:induction false} BufferAndInboxAreTheHistory(u: Setup, x: Side, y: Side)
    requires Faithful(u.game) && PairOk(u, x, y) && LiveOf(u.game, y).Some? && WillListen(x)
    ensures var (d, y') := WorkedThrough(u.game, x, y);
            && PairOk(u, d, y') && d.proc.Up? && d.inbox == [] && !d.proc.holding && y'.sampled == y.sampled
            && d.proc.core.step == x.proc.core.step && d.proc.core.nextSample == x.proc.core.nextSample
            && d.proc.core.ended == x.proc.core.ended
            && d.proc.core.peerNext == |y.sampled|
            && forall t: nat :: At(d.proc.core.peer, t) ==
                 if x.proc.core.step <= t < |y.sampled| then y.sampled[t] else []
    decreases |x.inbox|
  {
    if x.inbox != [] {
      OneMessageRead(u, x, y);
      var (x', y') := DoDeliver(u.game, x, y);
      BufferAndInboxAreTheHistory(u, x', y');
    } else {
      EverythingHeard(u, x, y);
    }
  }

  lemma EverythingHeard(u: Setup, x: Side, y: Side)
    requires PairOk(u, x, y) && LiveOf(u.game, y).Some? && WillListen(x) && x.inbox == []
    ensures !x.proc.holding && x.proc.core.peerNext == |y.sampled|
    ensures forall t: nat :: At(x.proc.core.peer, t) ==
              if x.proc.core.step <= t < |y.sampled| then y.sampled[t] else []
  {
    hide Agrees;
  }

  /// Recovery

  /** A joining seat working through its inbox up to the resync. */
  function Awaited(g: Game, x: Side, y: Side): Side
    decreases |x.inbox|
  {
    if !x.proc.Joining? || x.inbox == [] then x else Awaited(g, DoDeliver(g, x, y).0, y)
  }

  lemma {:induction false} AwaitedIsAdopted(g: Game, x: Side, y: Side)
    requires x.proc.Joining? && LiveOf(g, x).Some?
    ensures var l := LiveOf(g, x).value; Awaited(g, x, y) == x.(proc := Up(l.core, l.holding), inbox := l.queue)
    decreases |x.inbox|
  {
    if !x.inbox[0].ResyncMsg? {
      AwaitedIsAdopted(g, DoDeliver(g, x, y).0, y);
    } else {
      assert Awaited(g, x, y) == Awaited(g, DoDeliver(g, x, y).0, y);
    }
  }

  lemma {:induction false} AwaitingKeeps(u: Setup, x: Side, y: Side)
    requires PairOk(u, x, y)
    ensures PairOk(u, Awaited(u.game, x, y), y)
    decreases |x.inbox|
  {
    if x.proc.Joining? && x.inbox != [] {
      AwaitKeeps(u, x, y);
      AwaitingKeeps(u, DoDeliver(u.game, x, y).0, y);
    }
  }

  /** Recovery: once the survivor answers the hello and the fresh process has read its inbox, the fresh
      seat is the survivor's mirror. It resumes sampling exactly at the survivor's watermark, holds every
      committed command of its former self, and knows every commit of the survivor; no command beyond a
      commit is left in any buffer. */
  lemma RecoveryIsMirror(u: Setup, x: Side, y: Side)
    requires Faithful(u.game) && PairOk(u, x, y)
    requires Awaiting(x) && y.proc.Up? && y.inbox != [] && y.inbox[0].RejoinHello?
    ensures var (y', x1) := DoDeliver(u.game, y, x);
            var x' := Awaited(u.game, x1, y');
            var pruned := OnPeerLost(y.proc.core);
            && PairOk(u, x', y')
            && y'.proc == Up(pruned, false) && y'.inbox == y.inbox[1..]
            && x'.proc == Up(Mirror(pruned, x.inputDelay), false) && x'.inbox == []
            && x'.proc.core.nextSample == y.proc.core.peerNext == |x'.sampled|
            && NothingUncommitted(ViewOf(y'.proc.core)) && NothingUncommitted(ViewOf(x'.proc.core))
  {
    hide Agrees, LiveOf;
    var (y', x1) := DoDeliver(u.game, y, x);
    HelloKeeps(u, y, x);
    RunningIsOk(u, y, x);
    HandOff(u, y, x);
    AwaitedIsAdopted(u.game, x1, y');
    AwaitingKeeps(u, x1, y');
    MirrorKnowsAll(u, OnPeerLost(y.proc.core), y.sampled, x.sampled, x.inputDelay);
  }

  lemma MirrorKnowsAll(u: Setup, c: Core, mine: History, theirs: History, inputDelay: nat)
    requires CoreOk(u, c, mine, theirs)
    ensures NothingUncommitted(ViewOf(Mirror(c, inputDelay)))
  {
    hide Agrees;
  }

  /** A survivor that dies after its hand-off was sent leaves a seat that plays on alone: whatever part of
      its messages arrives, the fresh process adopts a core in good standing, or the hand-off is lost and
      nobody is left. */
  lemma SurvivorDiesMidHandoff(u: Setup, x: Side, y: Side, kept: nat, noticed: bool)
    requires PairOk(u, x, y) && x.proc.Joining? && LiveOf(u.game, x).Some? && y.proc.Up?
    ensures var (y', x1) := DoDie(y, x, kept, noticed);
            var x' := Awaited(u.game, x1, y');
            && PairOk(u, x', y')
            && (x'.proc.Up? <==> !Awaiting(x1))
            && (x'.proc.Up? ==> x'.proc.core == LiveOf(u.game, x).value.core
                                && CoreOk(u, x'.proc.core, x'.sampled, y'.sampled))
  {
    hide Agrees, Buffers, Stream, QueueFrom;
    var (y', x1) := DoDie(y, x, kept, noticed);
    DieKeeps(u, y, x, kept, noticed);
    AwaitingKeeps(u, x1, y');
    CutLive(u.game, x, Min(kept, |x.inbox|), if noticed then [PeerLeft] else []);
    if Awaiting(x1) {
      NeverAdopts(u.game, x1, y');
    } else {
      AwaitedIsAdopted(u.game, x1, y');
    }
  }

  lemma {:induction false} NeverAdopts(g: Game, x: Side, y: Side)
    requires Awaiting(x)
    ensures Awaited(g, x, y).proc.Joining?
    decreases |x.inbox|
  {
    if x.inbox != [] {
      NeverAdopts(g, DoDeliver(g, x, y).0, y);
    }
  }

  /** The next pump writes only ticks the buffer does not hold: nothing pending is overwritten. */
  lemma PumpOverwritesNothing(u: Setup, x: Side, y: Side, feed: nat -> seq<Command>, t: nat)
    requires PairOk(u, x, y) && x.proc.Up? && At(x.proc.core.own, t) != []
    ensures At(Pumped(x.proc.core, feed).own, t) == At(x.proc.core.own, t)
    ensures !(x.proc.core.nextSample <= t < SampleEnd(x.proc.core))
  {
    SampledAt(x.proc.core.own, feed, x.proc.core.nextSample, SampleEnd(x.proc.core), t);
  }

  /// Scripted seats

  /** What a `ScriptFeed` serves for a tick. */
  function ScriptFeedAt(script: ScriptFile, role: Role, t: nat): seq<Command> {
    CommandsAt(Schedule(script, role), t)
  }

  /** Every pump of the run reads the script's own feed. */
  ghost predicate ScriptedRun(script: ScriptFile, moves: seq<Move>) {
    forall i, t: nat :: 0 <= i < |moves| && moves[i].action.Pump? ==>
      moves[i].action.feed(t) == ScriptFeedAt(script, moves[i].role, t)
  }

  ghost predicate SampledFromScript(script: ScriptFile, x: Side) {
    forall t :: 0 <= t < |x.sampled| ==> x.sampled[t] == ScriptFeedAt(script, x.role, t)
  }

  lemma FedFromScript(script: ScriptFile, role: Role, h: History, feed: nat -> seq<Command>, end: nat)
    requires |h| <= end
    requires forall t :: 0 <= t < |h| ==> h[t] == ScriptFeedAt(script, role, t)
    requires forall t: nat :: feed(t) == ScriptFeedAt(script, role, t)
    ensures var h' := h + Fed(feed, |h|, end);
            forall t :: 0 <= t < |h'| ==> h'[t] == ScriptFeedAt(script, role, t)
  {
    var h' := h + Fed(feed, |h|, end);
    forall t | 0 <= t < |h'|
      ensures h'[t] == ScriptFeedAt(script, role, t)
    {
      if t >= |h| {
        FedAt(feed, |h|, end, t);
        assert h'[t] == feed(t);
      }
    }
  }

  lemma ScriptedPump(u: Setup, script: ScriptFile, x: Side, y: Side, feed: nat -> seq<Command>)
    requires PairOk(u, x, y) && SampledFromScript(script, x) && x.proc.Up? && !x.proc.holding
    requires forall t: nat :: feed(t) == ScriptFeedAt(script, x.role, t)
    ensures SampledFromScript(script, DoPump(x, y, feed).0)
  {
    FedFromScript(script, x.role, x.sampled, feed, SampleEnd(x.proc.core));
  }

  /** Only a pump samples; every other action leaves both histories alone or shortens the peer's. */
  lemma OnlyPumpsSample(g: Game, x: Side, y: Side, a: Action)
    ensures var (x', y') := Act(g, x, y, a);
            && x'.role == x.role && y'.role == y.role
            && y'.sampled <= y.sampled
            && (!a.Pump? ==> x'.sampled == x.sampled)
  {
  }

  lemma ScriptedAct(u: Setup, script: ScriptFile, x: Side, y: Side, a: Action)
    requires PairOk(u, x, y) && SampledFromScript(script, x) && SampledFromScript(script, y)
    requires a.Pump? ==> forall t: nat :: a.feed(t) == ScriptFeedAt(script, x.role, t)
    ensures var (x', y') := Act(u.game, x, y, a); SampledFromScript(script, x') && SampledFromScript(script, y')
  {
    OnlyPumpsSample(u.game, x, y, a);
    if a.Pump? && x.proc.Up? && !x.proc.holding {
      ScriptedPump(u, script, x, y, a.feed);
    }
  }

  lemma {:induction false} ScriptedRunSamplesTheScript(u: Setup, delayI: nat, delayH: nat, script: ScriptFile,
                                                       moves: seq<Move>)
    requires Faithful(u.game) && AllowedRun(u.game, FreshWorld(u, delayI, delayH), moves)
    requires ScriptedRun(script, moves)
    ensures var w := RunMoves(u.game, FreshWorld(u, delayI, delayH), moves);
            SampledFromScript(script, w.infiltrator) && SampledFromScript(script, w.hacker)
  {
    if moves != [] {
      var w0 := FreshWorld(u, delayI, delayH);
      var n := |moves| - 1;
      var front, last := moves[..n], moves[n];
      AllowedFront(u.game, w0, moves);
      assert forall i :: 0 <= i < n ==> front[i] == moves[i];
      ScriptedRunSamplesTheScript(u, delayI, delayH, script, front);
      var w := RunMoves(u.game, w0, front);
      PairInvariant(u, delayI, delayH, front, w, last.role);
      ScriptedAct(u, script, w.Get(last.role), w.Get(Other(last.role)), last.action);
    }
  }

  lemma {:induction false} ScriptedMerge(script: ScriptFile, role: Role, mine: History, theirs: History, n: nat)
    requires n <= |mine| && n <= |theirs| && n <= script.maxTicks
    requires forall t :: 0 <= t < |mine| ==> mine[t] == ScriptFeedAt(script, role, t)
    requires forall t :: 0 <= t < |theirs| ==> theirs[t] == ScriptFeedAt(script, Other(role), t)
    ensures MergedHistory(role, mine, theirs, n) == MergedScript(script, n)
  {
    if n > 0 {
      ScriptedMerge(script, role, mine, theirs, n - 1);
      ScheduleIsTheSeatsPart(script, Infiltrator, n - 1);
      ScheduleIsTheSeatsPart(script, Hacker, n - 1);
    }
  }

  lemma {:induction false} MergedScriptPrefix(script: ScriptFile, n: nat, k: nat)
    requires k <= n
    ensures MergedScript(script, n)[..k] == MergedScript(script, k)
  {
    hide MergedTick;
    var all := MergedScript(script, n);
    if k == n {
      assert all[..n] == all;
    } else {
      var front := MergedScript(script, n - 1);
      MergedScriptPrefix(script, n - 1, k);
      assert all[..k] == front[..k];
    }
  }

  /** A finished seat over script histories has played the merged script to its end. */
  lemma FinishedSeatPlayedTheScript(u: Setup, script: ScriptFile, c: Core, mine: History, theirs: History)
    requires u.maxSteps == script.maxTicks
    requires CoreOk(u, c, mine, theirs) && c.Finished()
    requires forall t :: 0 <= t < |mine| ==> mine[t] == ScriptFeedAt(script, c.role, t)
    requires forall t :: 0 <= t < |theirs| ==> theirs[t] == ScriptFeedAt(script, Other(c.role), t)
    ensures c.run == Play(u.game, u.start, FoldTicks(MergedScript(script, script.maxTicks)).0)
  {
    hide MergedScript, FoldTicks, Play, Exec, Buffers, ScriptFeedAt;
    var all := MergedScript(script, script.maxTicks);
    ScriptedMerge(script, c.role, mine, theirs, c.step);
    MergedScriptPrefix(script, script.maxTicks, c.step);
    forall k | 0 <= k < c.step
      ensures !u.game.ended(Exec(u.game, u.start, all[..k]).run.sim)
    {
      assert all[..k] == all[..c.step][..k];
    }
    ExecIsPlay(u.game, u.start, all, c.step);
  }

  /** The flagship: a scripted run of two live seats, with any input delays, any interleaving of pumps,
      deliveries and advances, and any number of deaths of either seat and recoveries, ends at every finished seat with
      the simulation and log of the merged schedule, and, for an orderly script, with those of the
      single-process reference run. */
  lemma LiveRunIsTheReferenceRun(u: Setup, delayI: nat, delayH: nat, script: ScriptFile, moves: seq<Move>, w: World,
                                 r: Role)
    requires Faithful(u.game) && Reachable(u, delayI, delayH, moves, w) && ScriptedRun(script, moves)
    requires u.maxSteps == script.maxTicks
    requires w.Get(r).proc.Up? && w.Get(r).proc.core.Finished()
    ensures w.Get(r).proc.core.run == Play(u.game, u.start, FoldTicks(MergedScript(script, script.maxTicks)).0)
    ensures Orderly(script) ==> w.Get(r).proc.core.run == Play(u.game, u.start, Dense(script))
  {
    PairInvariant(u, delayI, delayH, moves, w, r);
    PairInvariant(u, delayI, delayH, moves, w, Other(r));
    ScriptedRunSamplesTheScript(u, delayI, delayH, script, moves);
    var x, y := w.Get(r), w.Get(Other(r));
    FinishedSeatPlayedTheScript(u, script, x.proc.core, x.sampled, y.sampled);
    SplitMergeEqualsExpandIff(script);
  }
}
