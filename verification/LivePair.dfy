/** Two live seats over a lossless wire, each running its own frame loop: any order of frames, as long as
    neither seat is starved of them. */
module LivePair {
  import opened Wrappers
  import opened Commands
  import opened Script
  import opened Envelope
  import opened SeatSplit
  import opened SplitMerge
  import opened Headless
  import opened Lockstep
  import opened Streams
  import opened SeatInvariant
  import opened Netplay
  import opened NetplaySafety
  import opened NetplayTheorems
  import opened NetplayProgress
  import opened LiveSeat

  type Feed = nat -> seq<Command>

  /** A core as one side of the two-seat system. */
  function SideOf(c: Core, inbox: seq<Msg>, sampled: History): Side {
    Side(c.role, c.inputDelay, Up(c, false), inbox, sampled)
  }

  /** What both sides have left to do. */
  ghost function BothWork(u: Setup, x: Side, y: Side, fx: Feed, fy: Feed): nat {
    if Together(u, x, y) then Work(u, x, fx) + Work(u, y, fy) else 0
  }

  /** Nothing a frame of this seat could do. */
  predicate Idle(x: Side) {
    x.proc.Up? && x.inbox == [] && NothingToPump(x.proc.core) && !x.proc.core.Ready()
  }

  predicate Over(x: Side) {
    x.proc.Up? && x.proc.core.Finished()
  }

  lemma WorkIsSymmetric(u: Setup, x: Side, y: Side, fx: Feed, fy: Feed)
    ensures BothWork(u, x, y, fx, fy) == BothWork(u, y, x, fy, fx)
  {
    hide PairOk;
    if Together(u, x, y) {
      TogetherIsSymmetric(u, x, y);
    } else if Together(u, y, x) {
      TogetherIsSymmetric(u, y, x);
    }
  }

  /** Two seats that can do nothing more have both finished. */
  lemma IdlePairIsOver(u: Setup, x: Side, y: Side)
    requires Together(u, x, y) && (Idle(x) || Over(x)) && (Idle(y) || Over(y))
    ensures Over(x) && Over(y)
  {
    hide PairOk;
    TogetherIsSymmetric(u, x, y);
    if !Over(x) && !Over(y) {
      NoDeadlock(u, x, y);
    } else if !Over(x) {
      SeatBehindIsReady(u, x, y);
    } else if !Over(y) {
      SeatBehindIsReady(u, y, x);
    }
  }

  /// One frame

  lemma PumpedSide(u: Setup, x: Side, y: Side, fx: Feed, fy: Feed)
    requires Together(u, x, y)
    ensures var (x', y') := DoPump(x, y, fx);
            && Together(u, x', y') && BothWork(u, x', y', fx, fy) <= BothWork(u, x, y, fx, fy)
            && ((x', y') == (x, y) || BothWork(u, x', y', fx, fy) < BothWork(u, x, y, fx, fy))
            && NothingToPump(x'.proc.core)
  {
    hide PairOk;
    EveryMoveIsProgress(u, x, y, Pump(fx), fx, fy);
  }

  lemma AdvancedSide(u: Setup, x: Side, y: Side, fx: Feed, fy: Feed)
    requires Together(u, x, y)
    ensures var x' := x.(proc := Up(Advanced(u.game, x.proc.core), false));
            && Together(u, x', y) && BothWork(u, x', y, fx, fy) <= BothWork(u, x, y, fx, fy)
            && (x' == x || BothWork(u, x', y, fx, fy) < BothWork(u, x, y, fx, fy))
            && (x' == x ==> !x.proc.core.Ready())
  {
    hide PairOk;
    EveryMoveIsProgress(u, x, y, Action.Advance, fx, fy);
    TogetherBounds(u, x, y);
    AdvanceWorks(u, x.proc.core);
  }

  /** One message of the wire, accepted by an honest peer's seat. */
  lemma DeliveredSide(u: Setup, c: Core, o: Outgoing, rest: seq<Outgoing>, mine: History, y: Side, fx: Feed, fy: Feed)
    requires Together(u, SideOf(c, Msgs([o] + rest), mine), y)
    ensures var r := match o case CommandOut(at, cmd) => Lockstep.OnPeerCommand(c, at, cmd)
                             case CommitOut(through) => Lockstep.OnPeerCommit(c, through);
            && r.Success? && Together(u, SideOf(r.value, Msgs(rest), mine), y)
            && BothWork(u, SideOf(r.value, Msgs(rest), mine), y, fx, fy)
               < BothWork(u, SideOf(c, Msgs([o] + rest), mine), y, fx, fy)
            && SampleEnd(r.value) == SampleEnd(c) && r.value.nextSample == c.nextSample && r.value.role == c.role
  {
    hide PairOk, CoreOk, Stream;
    var x := SideOf(c, Msgs([o] + rest), mine);
    assert x.inbox[0] == ToMsg(o) && x.inbox[1..] == Msgs(rest);
    DataAccepted(u, x, y);
    LosslessKeepsTogether(u, x, y, Deliver);
    DeliverWorks(u, x, y, fx);
  }

  lemma NoMsgs()
    ensures Msgs([]) == []
  {
  }

  lemma MsgsOfMore(a: seq<Outgoing>, b: seq<Outgoing>)
    ensures Msgs(a + b) == Msgs(a) + Msgs(b)
  {
  }

  method DeliverAll(core: LockstepCore, out: seq<Outgoing>, ghost u: Setup, ghost mine: History, ghost y: Side,
                    ghost fx: Feed, ghost fy: Feed)
    requires Together(u, SideOf(core.State(), Msgs(out), mine), y)
    modifies core
    ensures Together(u, SideOf(core.State(), [], mine), y)
    ensures if out == [] then core.State() == old(core.State())
            else BothWork(u, SideOf(core.State(), [], mine), y, fx, fy)
                 < old(BothWork(u, SideOf(core.State(), Msgs(out), mine), y, fx, fy))
    ensures old(NothingToPump(core.State())) ==> NothingToPump(core.State())
  {
    hide Together, Msgs, BothWork;
    ghost var left := BothWork(u, SideOf(core.State(), Msgs(out), mine), y, fx, fy);
    assert out[0..] == out;
    for i := 0 to |out|
      invariant Together(u, SideOf(core.State(), Msgs(out[i..]), mine), y)
      invariant if i == 0 then core.State() == old(core.State())
                else BothWork(u, SideOf(core.State(), Msgs(out[i..]), mine), y, fx, fy) < left
      invariant old(NothingToPump(core.State())) ==> NothingToPump(core.State())
    {
      assert out[i..] == [out[i]] + out[i + 1..];
      DeliveredSide(u, core.State(), out[i], out[i + 1..], mine, y, fx, fy);
      match out[i] {
        case CommandOut(at, cmd) => var _ := core.OnPeerCommand(at, cmd);
        case CommitOut(through) => var _ := core.OnPeerCommit(through);
      }
    }
    assert out[|out|..] == [];
    NoMsgs();
  }

  /** What a frame achieves: nothing was left to do, or less is left now. */
  ghost predicate Achieved(u: Setup, x: Side, y: Side, x': Side, y': Side, fx: Feed, fy: Feed) {
    && Together(u, x', y')
    && (((x', y') == (x, y) && Idle(x)) || BothWork(u, x', y', fx, fy) < BothWork(u, x, y, fx, fy))
  }

  /** A frame of one seat: sample and send, read everything that has arrived, execute what is ready. */
  method Frame(g: Game, me: LockstepCore, feed: Feed, inbox: seq<Outgoing>, outbox: seq<Outgoing>,
               ghost u: Setup, ghost mine: History, ghost y: Side, ghost fy: Feed)
    returns (outbox': seq<Outgoing>, ghost mine': History)
    requires u.game == g && y.inbox == Msgs(outbox)
    requires Together(u, SideOf(me.State(), Msgs(inbox), mine), y)
    modifies me
    ensures mine' == mine + Fed(feed, old(me.nextSample), SampleEnd(old(me.State())))
    ensures Achieved(u, old(SideOf(me.State(), Msgs(inbox), mine)), y,
                     SideOf(me.State(), [], mine'), y.(inbox := Msgs(outbox')), feed, fy)
  {
    hide Together, Msgs, BothWork, Fed;
    ghost var x := SideOf(me.State(), Msgs(inbox), mine);
    PumpedSide(u, x, y, feed, fy);
    var out := me.PumpOutgoing(feed);
    outbox', mine' := outbox + out, mine + Fed(feed, x.proc.core.nextSample, SampleEnd(x.proc.core));
    MsgsOfMore(outbox, out);
    ghost var y' := y.(inbox := Msgs(outbox'));
    ghost var x1 := SideOf(me.State(), Msgs(inbox), mine');
    assert DoPump(x, y, feed) == (x1, y') by { PeerIsUp(u, x, y); }
    DeliverAll(me, inbox, u, mine', y', feed, fy);
    NoMsgs();
    AdvancedSide(u, SideOf(me.State(), [], mine'), y', feed, fy);
    me.Advance(g);
  }

  lemma PeerIsUp(u: Setup, x: Side, y: Side)
    requires Together(u, x, y)
    ensures Listening(x) && Listening(y)
  {
  }

  /// Scripted pairs

  ghost predicate Serves(script: ScriptFile, role: Role, feed: Feed) {
    forall t: nat :: feed(t) == ScriptFeedAt(script, role, t)
  }

  /** The state of a pair on a script: in touch, and sampled from the script so far. */
  ghost predicate OnScript(u: Setup, script: ScriptFile, x: Side, y: Side) {
    && Together(u, x, y) && x.role == Infiltrator
    && SampledFromScript(script, x) && SampledFromScript(script, y)
  }

  lemma StartsOnScript(u: Setup, script: ScriptFile, delayI: nat, delayH: nat)
    ensures var a, b := NewCore(Infiltrator, delayI, u.maxSteps, u.start), NewCore(Hacker, delayH, u.maxSteps, u.start);
            OnScript(u, script, SideOf(a, [], []), SideOf(b, [], []))
  {
    FreshWorldOk(u, delayI, delayH);
  }

  lemma BothFinishedOnScript(u: Setup, script: ScriptFile, x: Side, y: Side)
    requires OnScript(u, script, x, y) && Over(x) && Over(y) && u.maxSteps == script.maxTicks
    ensures x.proc.core.run == y.proc.core.run ==
            Play(u.game, u.start, FoldTicks(MergedScript(script, script.maxTicks)).0)
    ensures Orderly(script) ==> x.proc.core.run == Play(u.game, u.start, Dense(script))
  {
    hide Stream, Agrees, Buffers;
    FinishedSeatPlayedTheScript(u, script, x.proc.core, x.sampled, y.sampled);
    FinishedSeatPlayedTheScript(u, script, y.proc.core, y.sampled, x.sampled);
    SplitMergeEqualsExpandIff(script);
  }

  lemma FeedServesTheScript(feed: ScriptFeed, f: Feed)
    requires feed.Valid() && forall t: nat :: f(t) == At(feed.byTick, t)
    ensures Serves(feed.script, feed.role, f)
  {
    forall t: nat
      ensures f(t) == ScriptFeedAt(feed.script, feed.role, t)
    {
      assert feed.CommandsFor(t) == CommandsAt(Schedule(feed.script, feed.role), t);
    }
  }

  method OpenFeed(script: ScriptFile, role: Role) returns (feed: Feed)
    ensures Serves(script, role, feed)
  {
    var source := new ScriptFeed(script, role);
    feed := (t: nat) => At(source.byTick, t);
    FeedServesTheScript(source, feed);
  }

  /// A round of frames

  /** Between two frames of a round that began at `x0`, `y0`: less is left than then, or nothing has changed
      and every seat of `seen` was idle or finished. */
  ghost predicate Underway(u: Setup, x0: Side, y0: Side, x: Side, y: Side, seen: seq<Role>, fx: Feed, fy: Feed) {
    || BothWork(u, x, y, fx, fy) < BothWork(u, x0, y0, fx, fy)
    || ((x, y) == (x0, y0)
        && (Infiltrator in seen ==> Idle(x) || Over(x)) && (Hacker in seen ==> Idle(y) || Over(y)))
  }

  lemma FrameOfX(u: Setup, x0: Side, y0: Side, x: Side, y: Side, x': Side, y': Side, seen: seq<Role>, fx: Feed,
                 fy: Feed)
    requires Underway(u, x0, y0, x, y, seen, fx, fy)
    requires if Over(x) then (x', y') == (x, y) else Achieved(u, x, y, x', y', fx, fy)
    ensures Underway(u, x0, y0, x', y', seen + [Infiltrator], fx, fy)
  {
    hide Together, BothWork, Idle;
  }

  lemma FrameOfY(u: Setup, x0: Side, y0: Side, x: Side, y: Side, x': Side, y': Side, seen: seq<Role>, fx: Feed,
                 fy: Feed)
    requires Underway(u, x0, y0, x, y, seen, fx, fy)
    requires if Over(y) then (x', y') == (x, y) else Achieved(u, y, x, y', x', fy, fx)
    ensures Underway(u, x0, y0, x', y', seen + [Hacker], fx, fy)
  {
    hide Together, BothWork, Idle;
    WorkIsSymmetric(u, x, y, fx, fy);
    WorkIsSymmetric(u, x', y', fx, fy);
  }

  lemma SampledOn(script: ScriptFile, x: Side, x': Side, feed: Feed)
    requires SampledFromScript(script, x) && Serves(script, x.role, feed) && x.proc.Up?
    requires |x.sampled| == x.proc.core.nextSample && x'.role == x.role
    requires x'.sampled == x.sampled + Fed(feed, x.proc.core.nextSample, SampleEnd(x.proc.core))
    ensures SampledFromScript(script, x')
  {
    FedFromScript(script, x.role, x.sampled, feed, SampleEnd(x.proc.core));
  }

  /** The frames of one round, in any order; a finished seat has left its loop and takes none. */
  method Round(g: Game, a: LockstepCore, b: LockstepCore, fa: Feed, fb: Feed, order: seq<Role>,
               toA0: seq<Outgoing>, toB0: seq<Outgoing>,
               ghost u: Setup, ghost script: ScriptFile, ghost ha0: History, ghost hb0: History)
    returns (toA: seq<Outgoing>, toB: seq<Outgoing>, ghost ha: History, ghost hb: History)
    requires u.game == g && a != b
    requires OnScript(u, script, SideOf(a.State(), Msgs(toA0), ha0), SideOf(b.State(), Msgs(toB0), hb0))
    requires Serves(script, Infiltrator, fa) && Serves(script, Hacker, fb)
    modifies a, b
    ensures OnScript(u, script, SideOf(a.State(), Msgs(toA), ha), SideOf(b.State(), Msgs(toB), hb))
    ensures Underway(u, old(SideOf(a.State(), Msgs(toA0), ha0)), old(SideOf(b.State(), Msgs(toB0), hb0)),
                     SideOf(a.State(), Msgs(toA), ha), SideOf(b.State(), Msgs(toB), hb), order, fa, fb)
  {
    hide Together, Msgs, BothWork, Idle, Fed, SampledFromScript, Serves;
    toA, toB, ha, hb := toA0, toB0, ha0, hb0;
    ghost var x0, y0 := SideOf(a.State(), Msgs(toA), ha), SideOf(b.State(), Msgs(toB), hb);
    for i := 0 to |order|
      invariant OnScript(u, script, SideOf(a.State(), Msgs(toA), ha), SideOf(b.State(), Msgs(toB), hb))
      invariant Underway(u, x0, y0, SideOf(a.State(), Msgs(toA), ha), SideOf(b.State(), Msgs(toB), hb),
                         order[..i], fa, fb)
    {
      ghost var x, y := SideOf(a.State(), Msgs(toA), ha), SideOf(b.State(), Msgs(toB), hb);
      assert order[..i + 1] == order[..i] + [order[i]];
      TogetherBounds(u, x, y);
      NoMsgs();
      if order[i] == Infiltrator {
        if !a.Finished() {
          toB, ha := Frame(g, a, fa, toA, toB, u, ha, y, fb);
          toA := [];
          SampledOn(script, x, SideOf(a.State(), [], ha), fa);
          SameSamples(script, y, Msgs(toB));
        }
        FrameOfX(u, x0, y0, x, y, SideOf(a.State(), Msgs(toA), ha), SideOf(b.State(), Msgs(toB), hb),
                 order[..i], fa, fb);
      } else {
        TogetherIsSymmetric(u, x, y);
        if !b.Finished() {
          toA, hb := Frame(g, b, fb, toB, toA, u, hb, x, fa);
          toB := [];
          SampledOn(script, y, SideOf(b.State(), [], hb), fb);
          SameSamples(script, x, Msgs(toA));
          TogetherIsSymmetric(u, SideOf(b.State(), [], hb), SideOf(a.State(), Msgs(toA), ha));
        }
        FrameOfY(u, x0, y0, x, y, SideOf(a.State(), Msgs(toA), ha), SideOf(b.State(), Msgs(toB), hb),
                 order[..i], fa, fb);
      }
    }
    assert order[..|order|] == order;
  }

  lemma SameSamples(script: ScriptFile, x: Side, inbox: seq<Msg>)
    requires SampledFromScript(script, x)
    ensures SampledFromScript(script, x.(inbox := inbox))
  {
  }

  lemma RoundEnds(u: Setup, x0: Side, y0: Side, x: Side, y: Side, order: seq<Role>, fx: Feed, fy: Feed)
    requires Together(u, x, y) && Underway(u, x0, y0, x, y, order, fx, fy)
    requires Infiltrator in order && Hacker in order && !(Over(x0) && Over(y0))
    ensures BothWork(u, x, y, fx, fy) < BothWork(u, x0, y0, fx, fy)
  {
    hide Together, BothWork, Idle;
    if (x, y) == (x0, y0) && (Idle(x) || Over(x)) && (Idle(y) || Over(y)) {
      IdlePairIsOver(u, x, y);
    }
  }

  /// Whole runs

  /** Neither seat is starved: every round of frames holds at least one of each. */
  ghost predicate Fair(rounds: nat -> seq<Role>) {
    forall n: nat :: Infiltrator in rounds(n) && Hacker in rounds(n)
  }

  /** Two seats with any two input delays, each fed its own half of a script, whose frames interleave in any
      fair order. The run ends, and both seats end where the merged schedule ends; for an orderly script,
      where the reference run ends. */
  method RunPair(g: Game, script: ScriptFile, delayI: nat, delayH: nat, rounds: nat -> seq<Role>)
    returns (r: Result<(Run, Run), string>)
    requires Fair(rounds)
    ensures g.build(script).Failure? ==> r == Failure(g.build(script).error)
    ensures g.build(script).Success? ==>
              var start := g.build(script).value;
              && r.Success?
              && r.value.0 == r.value.1 == Play(g, start, FoldTicks(MergedScript(script, script.maxTicks)).0)
              && (Orderly(script) ==> r.value.0 == Play(g, start, Dense(script)))
  {
    var newA := LockstepCore.New(g, Infiltrator, delayI, script);
    if newA.Failure? {
      return Failure(newA.error);
    }
    var newB := LockstepCore.New(g, Hacker, delayH, script);
    var a, b := newA.value, newB.value;
    ghost var u := Setup(g, g.build(script).value, script.maxTicks);
    StartsOnScript(u, script, delayI, delayH);
    RunToEnd(g, a, b, script, rounds, u);
    r := Success((a.run, b.run));
  }

  method RunToEnd(g: Game, a: LockstepCore, b: LockstepCore, script: ScriptFile, rounds: nat -> seq<Role>,
                  ghost u: Setup)
    requires u.game == g && Fair(rounds) && u.maxSteps == script.maxTicks
    requires a != b && OnScript(u, script, SideOf(a.State(), [], []), SideOf(b.State(), [], []))
    modifies a, b
    ensures a.run == b.run == Play(g, u.start, FoldTicks(MergedScript(script, script.maxTicks)).0)
    ensures Orderly(script) ==> a.run == Play(g, u.start, Dense(script))
  {
    hide OnScript, Msgs, BothWork, Idle, Underway;
    var fa := OpenFeed(script, Infiltrator);
    var fb := OpenFeed(script, Hacker);
    var toA, toB, n: nat := [], [], 0;
    ghost var ha: History, hb: History := [], [];
    NoMsgs();
    while !(a.Finished() && b.Finished())
      invariant OnScript(u, script, SideOf(a.State(), Msgs(toA), ha), SideOf(b.State(), Msgs(toB), hb))
      decreases BothWork(u, SideOf(a.State(), Msgs(toA), ha), SideOf(b.State(), Msgs(toB), hb), fa, fb)
    {
      ghost var x0, y0 := SideOf(a.State(), Msgs(toA), ha), SideOf(b.State(), Msgs(toB), hb);
      toA, toB, ha, hb := Round(g, a, b, fa, fb, rounds(n), toA, toB, u, script, ha, hb);
      ghost var x, y := SideOf(a.State(), Msgs(toA), ha), SideOf(b.State(), Msgs(toB), hb);
      OnScriptIsTogether(u, script, x, y);
      RoundEnds(u, x0, y0, x, y, rounds(n), fa, fb);
      n := n + 1;
    }
    BothFinishedOnScript(u, script, SideOf(a.State(), Msgs(toA), ha), SideOf(b.State(), Msgs(toB), hb));
  }

  lemma OnScriptIsTogether(u: Setup, script: ScriptFile, x: Side, y: Side)
    requires OnScript(u, script, x, y)
    ensures Together(u, x, y)
  {
  }
}
