/** What every seat of a session keeps: its buffers hold the two sampled histories, and its simulation,
    held set and log are those of running the merged histories up to its step. */
module SeatInvariant {
  import opened Wrappers
  import opened Commands
  import opened Envelope
  import opened SeatSplit
  import opened Headless
  import opened Lockstep
  import opened Streams

  /** What the two seats of a session agree on before it starts. */
  datatype Setup = Setup(game: Game, start: Run, maxSteps: nat)

  function Pair(role: Role, mine: seq<Command>, theirs: seq<Command>): seq<Command> {
    if role == Infiltrator then mine + theirs else theirs + mine
  }

  /** The first `n` ticks of two histories, merged in the order every seat merges them. */
  function MergedHistory(role: Role, mine: History, theirs: History, n: nat): (r: seq<seq<Command>>)
    requires n <= |mine| && n <= |theirs|
    ensures |r| == n
  {
    if n == 0 then [] else MergedHistory(role, mine, theirs, n - 1) + [Pair(role, mine[n - 1], theirs[n - 1])]
  }

  lemma {:induction false} MergedHistoryPrefix(role: Role, mine: History, theirs: History, n: nat, k: nat)
    requires k <= n <= |mine| && n <= |theirs|
    ensures MergedHistory(role, mine, theirs, n)[..k] == MergedHistory(role, mine, theirs, k)
  {
    if k < n {
      MergedHistoryPrefix(role, mine, theirs, n - 1, k);
    }
  }

  /** Sampling more, or forgetting what lies beyond `n`, does not change the first `n` merged ticks. */
  lemma {:induction false} MergedHistoryLocal(role: Role, mine: History, theirs: History, mine': History,
                                              theirs': History, n: nat)
    requires n <= |mine| && n <= |theirs| && n <= |mine'| && n <= |theirs'|
    requires mine[..n] == mine'[..n] && theirs[..n] == theirs'[..n]
    ensures MergedHistory(role, mine, theirs, n) == MergedHistory(role, mine', theirs', n)
  {
    if n > 0 {
      assert mine[..n - 1] == mine[..n][..n - 1] && mine'[..n - 1] == mine'[..n][..n - 1];
      assert theirs[..n - 1] == theirs[..n][..n - 1] && theirs'[..n - 1] == theirs'[..n][..n - 1];
      MergedHistoryLocal(role, mine, theirs, mine', theirs', n - 1);
      assert mine[n - 1] == mine[..n][n - 1] && mine'[n - 1] == mine'[..n][n - 1];
      assert theirs[n - 1] == theirs[..n][n - 1] && theirs'[n - 1] == theirs'[..n][n - 1];
    }
  }

  /** Both seats merge to the same lists. */
  lemma {:induction false} MergedHistoryOfOther(role: Role, mine: History, theirs: History, n: nat)
    requires n <= |mine| && n <= |theirs|
    ensures MergedHistory(Other(role), theirs, mine, n) == MergedHistory(role, mine, theirs, n)
  {
    if n > 0 {
      MergedHistoryOfOther(role, mine, theirs, n - 1);
    }
  }

  /// The invariant

  predicate Bounds(u: Setup, c: Core, mine: History, theirs: History) {
    && c.maxSteps == u.maxSteps
    && c.step <= c.nextSample <= u.maxSteps
    && c.step <= c.peerNext <= u.maxSteps
    && |mine| == c.nextSample
    && c.peerNext <= |theirs|
  }

  function ViewOf(c: Core): View {
    View(c.peer, c.peerNext)
  }

  /** Own buffer: exactly what was sampled and not yet executed. Peer buffer: exactly what the peer
      sampled, for every committed tick not yet executed. Neither stores an empty list. */
  ghost predicate Buffers(c: Core, mine: History, theirs: History)
    requires |mine| == c.nextSample && c.peerNext <= |theirs|
  {
    && (forall t: nat :: At(c.own, t) == if c.step <= t < c.nextSample then mine[t] else [])
    && (forall t: nat :: t < c.step ==> At(c.peer, t) == [])
    && Exact(ViewOf(c), theirs, c.step)
    && NoEmptyLists(c.own)
    && NoEmptyLists(c.peer)
  }

  predicate Agrees(u: Setup, c: Core, mine: History, theirs: History)
    requires c.step <= |mine| && c.step <= |theirs|
  {
    var merged := MergedHistory(c.role, mine, theirs, c.step);
    && Progress(c.run, c.held) == Exec(u.game, u.start, merged)
    && LiveUpTo(u.game, u.start, merged, c.step)
  }

  predicate EndedOnlyIfOver(u: Setup, c: Core) {
    c.ended ==> c.step < c.peerNext && c.step < c.nextSample && u.game.ended(c.run.sim)
  }

  ghost predicate CoreOk(u: Setup, c: Core, mine: History, theirs: History) {
    && Bounds(u, c, mine, theirs)
    && Buffers(c, mine, theirs)
    && Agrees(u, c, mine, theirs)
    && EndedOnlyIfOver(u, c)
  }

  lemma NewCoreOk(u: Setup, role: Role, inputDelay: nat)
    ensures CoreOk(u, NewCore(role, inputDelay, u.maxSteps, u.start), [], [])
  {
  }

  /// What does not disturb it

  /** The other seat samples more, or loses history this seat never saw committed. */
  lemma TheirHistoryMayChange(u: Setup, c: Core, mine: History, theirs: History, theirs': History)
    requires CoreOk(u, c, mine, theirs)
    requires c.peerNext <= |theirs'| && theirs[..c.peerNext] == theirs'[..c.peerNext]
    ensures CoreOk(u, c, mine, theirs')
  {
    forall t | 0 <= t < c.peerNext
      ensures theirs[t] == theirs'[t]
    {
      assert theirs[t] == theirs[..c.peerNext][t] && theirs'[t] == theirs'[..c.peerNext][t];
    }
    assert theirs[..c.step] == theirs[..c.peerNext][..c.step] && theirs'[..c.step] == theirs'[..c.peerNext][..c.step];
    MergedHistoryLocal(c.role, mine, theirs, mine, theirs', c.step);
  }

  lemma LostPeerOk(u: Setup, c: Core, mine: History, theirs: History)
    requires CoreOk(u, c, mine, theirs)
    ensures CoreOk(u, OnPeerLost(c), mine, theirs)
    ensures NothingUncommitted(ViewOf(OnPeerLost(c))) && ViewOf(OnPeerLost(c)) == Pruned(ViewOf(c))
  {
    forall t: nat | t < c.peerNext
      ensures At(OnPeerLost(c).peer, t) == At(c.peer, t)
    {
    }
  }

  /** What has been executed does not depend on the buffers. */
  lemma AgreesWithoutBuffers(u: Setup, c: Core, c': Core, mine: History, theirs: History)
    requires c.step <= |mine| && c.step <= |theirs| && Agrees(u, c, mine, theirs)
    requires c'.role == c.role && c'.step == c.step && c'.run == c.run && c'.held == c.held
    ensures Agrees(u, c', mine, theirs)
  {
  }

  lemma PeerCommandOk(u: Setup, c: Core, mine: History, theirs: History, at: nat, cmd: Command)
    requires CoreOk(u, c, mine, theirs) && c.peerNext <= at < u.maxSteps
    ensures OnPeerCommand(c, at, cmd).Success?
    ensures CoreOk(u, OnPeerCommand(c, at, cmd).value, mine, theirs)
  {
    hide Agrees;
    var c' := OnPeerCommand(c, at, cmd).value;
    assert Agrees(u, c', mine, theirs) by { AgreesWithoutBuffers(u, c, c', mine, theirs); }
    forall t: nat | t != at
      ensures At(c'.peer, t) == At(c.peer, t)
    {
    }
  }

  lemma PeerCommitOk(u: Setup, c: Core, mine: History, theirs: History, through: nat)
    requires CoreOk(u, c, mine, theirs) && through < u.maxSteps
    requires Exact(View(c.peer, Max(c.peerNext, through + 1)), theirs, c.step)
    ensures OnPeerCommit(c, through).Success?
    ensures CoreOk(u, OnPeerCommit(c, through).value, mine, theirs)
    ensures ViewOf(OnPeerCommit(c, through).value) == View(c.peer, Max(c.peerNext, through + 1))
  {
  }

  /// Pumping

  lemma {:induction false} SampledAt(own: TickMap, feed: nat -> seq<Command>, lo: nat, hi: nat, t: nat)
    requires lo <= hi && forall t: nat :: lo <= t ==> At(own, t) == []
    ensures At(SampledInto(own, feed, lo, hi), t) == if lo <= t < hi then feed(t) else At(own, t)
    ensures NoEmptyLists(own) ==> NoEmptyLists(SampledInto(own, feed, lo, hi))
  {
    if lo < hi {
      SampledAt(own, feed, lo, hi - 1, t);
    }
  }

  lemma PumpedOwn(c: Core, mine: History, theirs: History, feed: nat -> seq<Command>)
    requires |mine| == c.nextSample && c.peerNext <= |theirs| && c.step <= c.nextSample
    requires Buffers(c, mine, theirs)
    ensures Buffers(Pumped(c, feed), mine + Fed(feed, c.nextSample, SampleEnd(c)), theirs)
  {
    var end := SampleEnd(c);
    var c', mine' := Pumped(c, feed), mine + Fed(feed, c.nextSample, end);
    SampledAt(c.own, feed, c.nextSample, end, 0);
    forall t: nat
      ensures At(c'.own, t) == if c.step <= t < end then mine'[t] else []
    {
      SampledAt(c.own, feed, c.nextSample, end, t);
      if c.nextSample <= t < end {
        FedAt(feed, c.nextSample, end, t);
      }
    }
  }

  lemma PumpOk(u: Setup, c: Core, mine: History, theirs: History, feed: nat -> seq<Command>)
    requires CoreOk(u, c, mine, theirs)
    ensures SampleEnd(c) <= u.maxSteps
    ensures CoreOk(u, Pumped(c, feed), mine + Fed(feed, c.nextSample, SampleEnd(c)), theirs)
  {
    var mine' := mine + Fed(feed, c.nextSample, SampleEnd(c));
    PumpedOwn(c, mine, theirs, feed);
    assert mine'[..c.step] == mine[..c.step];
    MergedHistoryLocal(c.role, mine, theirs, mine', theirs, c.step);
  }

  /// Advancing

  lemma NextIsMerged(c: Core, mine: History, theirs: History)
    requires |mine| == c.nextSample && c.peerNext <= |theirs|
    requires Buffers(c, mine, theirs) && c.step < c.nextSample && c.step < c.peerNext
    ensures NextCommands(c) == Pair(c.role, mine[c.step], theirs[c.step])
  {
    assert At(c.own, c.step) == mine[c.step];
    assert At(c.peer, c.step) == theirs[c.step];
  }

  lemma ExecutedBuffers(g: Game, c: Core, mine: History, theirs: History)
    requires |mine| == c.nextSample && c.peerNext <= |theirs|
    requires Buffers(c, mine, theirs) && c.step < c.nextSample && c.step < c.peerNext
    ensures Buffers(ExecuteTick(g, c), mine, theirs)
    ensures forall t: nat :: t > c.step ==> At(ExecuteTick(g, c).peer, t) == At(c.peer, t)
  {
    var c' := ExecuteTick(g, c);
    forall t: nat
      ensures At(c'.own, t) == if t == c.step then [] else At(c.own, t)
      ensures At(c'.peer, t) == if t == c.step then [] else At(c.peer, t)
    {
    }
  }

  lemma LiveOneMore(g: Game, start: Run, before: seq<seq<Command>>, last: seq<Command>)
    requires LiveUpTo(g, start, before, |before|) && !g.ended(Exec(g, start, before).run.sim)
    ensures LiveUpTo(g, start, before + [last], |before| + 1)
  {
    var after := before + [last];
    forall k | 0 <= k < |before| + 1
      ensures !g.ended(Exec(g, start, after[..k]).run.sim)
    {
      assert after[..k] == before[..k];
      assert before[..|before|] == before;
    }
  }

  lemma ExecutedAgrees(u: Setup, c: Core, mine: History, theirs: History)
    requires CoreOk(u, c, mine, theirs) && c.Ready() && !u.game.ended(c.run.sim)
    ensures Agrees(u, ExecuteTick(u.game, c), mine, theirs)
  {
    hide Buffers, NextCommands, InputOf, HeldAfter, LiveUpTo;
    var before, after := MergedHistory(c.role, mine, theirs, c.step), MergedHistory(c.role, mine, theirs, c.step + 1);
    NextIsMerged(c, mine, theirs);
    assert after[..c.step] == before;
    LiveOneMore(u.game, u.start, before, NextCommands(c));
  }

  lemma AdvanceOnceOk(u: Setup, c: Core, mine: History, theirs: History)
    requires CoreOk(u, c, mine, theirs)
    ensures CoreOk(u, AdvanceOnce(u.game, c), mine, theirs)
  {
    if c.Ready() && !u.game.ended(c.run.sim) {
      ExecutedBuffers(u.game, c, mine, theirs);
      ExecutedAgrees(u, c, mine, theirs);
    }
  }

  /** A frame's advance keeps the seat's invariant, and leaves every tick it has not executed alone. */
  lemma {:induction false} AdvanceOk(u: Setup, c: Core, mine: History, theirs: History)
    requires CoreOk(u, c, mine, theirs)
    ensures CoreOk(u, Advanced(u.game, c), mine, theirs)
    ensures var c' := Advanced(u.game, c);
            && c' == c.(run := c'.run, held := c'.held, step := c'.step,
                       own := c'.own, peer := c'.peer, ended := c'.ended)
            && c.step <= c'.step
            && forall t: nat :: t >= c'.step ==> At(c'.peer, t) == At(c.peer, t)
    decreases if c.ended then 0 else 1, c.maxSteps - c.step
  {
    if c.Ready() {
      AdvanceOnceOk(u, c, mine, theirs);
      if !u.game.ended(c.run.sim) {
        ExecutedBuffers(u.game, c, mine, theirs);
      }
      AdvanceOk(u, AdvanceOnce(u.game, c), mine, theirs);
    }
  }

  /// Handing over

  lemma ReachableIsTransferable(u: Setup, c: Core, mine: History, theirs: History)
    requires CoreOk(u, c, mine, theirs)
    ensures Transferable(c)
  {
    ExecHoldsButtonsOnly(u.game, u.start, MergedHistory(c.role, mine, theirs, c.step));
  }

  /** The mirror of a pruned seat is a seat of the other role over the committed histories. */
  lemma MirrorOk(u: Setup, c: Core, mine: History, theirs: History, inputDelay: nat)
    requires CoreOk(u, c, mine, theirs) && NothingUncommitted(ViewOf(c))
    ensures CoreOk(u, Mirror(c, inputDelay), theirs[..c.peerNext], mine)
    ensures Stream(ViewOf(Mirror(c, inputDelay)), false, [], mine, c.step, u.maxSteps, true)
  {
    var theirs' := theirs[..c.peerNext];
    TheirHistoryMayChange(u, c, mine, theirs, theirs');
    MergedHistoryOfOther(c.role, mine, theirs', c.step);
    var m := Mirror(c, inputDelay);
    forall t: nat
      ensures At(m.own, t) == if m.step <= t < m.nextSample then theirs'[t] else []
    {
    }
  }
}
