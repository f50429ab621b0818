/** Two concrete runs of the rejoin race: a resync names the role that sent it but not the hello it
    answers, so a fresh process can adopt one meant for an earlier incarnation of its seat. */
module RejoinRace {
  import opened Wrappers
  import opened Commands
  import opened Envelope
  import opened Headless
  import opened Lockstep
  import opened Streams
  import opened SeatInvariant
  import opened Netplay

  /// Inputs

  /** One uplink for tick 0. */
  function OneUplink(t: nat): seq<Command> {
    if t == 0 then [Uplink(Camera)] else []
  }

  function NoInput(t: nat): seq<Command> {
    []
  }

  const UPLINKED: seq<Msg> := [Cmd(0, Uplink(Camera)), Commit(0)]

  /// Steps

  function Steps(g: Game, w: World, moves: seq<Move>): World
    decreases |moves|
  {
    if moves == [] then w else Steps(g, Next(g, w, moves[0]), moves[1..])
  }

  lemma OneStep(g: Game, w: World, m: Move, rest: seq<Move>)
    ensures Steps(g, w, [m] + rest) == Steps(g, Next(g, w, m), rest)
  {
    assert ([m] + rest)[1..] == rest;
  }

  lemma TwoSteps(g: Game, w: World, m: Move, n: Move)
    ensures Steps(g, w, [m, n]) == Next(g, Next(g, w, m), n)
  {
    assert [m, n] == [m] + [n];
    OneStep(g, w, m, [n]);
    assert [n][1..] == [];
  }

  /// The survivor at tick 0

  /** The infiltrator before its first tick, with or without its own input for it. */
  predicate AtStart(u: Setup, c: Core) {
    && (c == NewCore(Infiltrator, 0, u.maxSteps, u.start)
        || c == Pumped(NewCore(Infiltrator, 0, u.maxSteps, u.start), NoInput))
    && u.maxSteps > 0
  }

  /** The survivor live with `inbox`, and the hacker's latest process. */
  function Scene(c: Core, mine: History, inbox: seq<Msg>, hacker: Proc, toHacker: seq<Msg>, sampled: History): World {
    World(Side(Infiltrator, 0, Up(c, false), inbox, mine), Side(Hacker, 0, hacker, toHacker, sampled))
  }

  lemma SampledNothing(c: Core)
    requires c.step == 0 && c.inputDelay == 0 && c.nextSample == 0 && c.maxSteps > 0 && !c.ended
    ensures Pumped(c, NoInput) == c.(nextSample := 1)
    ensures Msgs(PumpOutput(c, NoInput)) == [Commit(0)] && Fed(NoInput, 0, SampleEnd(c)) == [[]]
  {
    assert SampleEnd(c) == 1;
    assert TicksOut(NoInput, 0, 1) == [];
    assert SampledInto(c.own, NoInput, 0, 1) == c.own;
  }

  lemma SampledUplink(c: Core)
    requires c.step == 0 && c.inputDelay == 0 && c.nextSample == 0 && c.maxSteps > 0 && !c.ended
    ensures Msgs(PumpOutput(c, OneUplink)) == UPLINKED && Fed(OneUplink, 0, SampleEnd(c)) == [[Uplink(Camera)]]
  {
    assert SampleEnd(c) == 1;
    assert OneUplink(0)[..0] == [];
    assert CommandsOut(0, OneUplink(0)) == [CommandOut(0, Uplink(Camera))];
    assert TicksOut(OneUplink, 0, 1) == [CommandOut(0, Uplink(Camera))];
  }

  lemma StartIsPlain(u: Setup, c: Core)
    requires AtStart(u, c)
    ensures c == NewCore(Infiltrator, 0, u.maxSteps, u.start).(nextSample := c.nextSample)
    ensures Transferable(c) && OnPeerLost(c) == c
  {
    SampledNothing(NewCore(Infiltrator, 0, u.maxSteps, u.start));
    assert OnPeerLost(c).peer == c.peer;
  }

  lemma Departure(u: Setup, c: Core, mine: History, inbox: seq<Msg>, hacker: Proc, toHacker: seq<Msg>,
                  sampled: History, kept: nat)
    requires kept == |inbox| && (hacker.Up? || hacker.Joining?)
    ensures Steps(u.game, Scene(c, mine, inbox, hacker, toHacker, sampled),
                  [Move(Hacker, Die(kept, false)), Move(Hacker, Rejoin)]) ==
            Scene(c, mine, inbox + [RejoinHello], Joining, [], sampled)
  {
    var w := Scene(c, mine, inbox, hacker, toHacker, sampled);
    TwoSteps(u.game, w, Move(Hacker, Die(kept, false)), Move(Hacker, Rejoin));
    assert inbox[..Min(kept, |inbox|)] + [] == inbox;
  }

  const ANSWERED: seq<Move> := [Move(Infiltrator, Deliver), Move(Hacker, Deliver)]

  /** A hello answered, and the hand-off adopted by whichever process of the hacker is there. */
  lemma Adopting(u: Setup, c: Core, mine: History, rest: seq<Msg>, sampled: History)
    requires Faithful(u.game) && AtStart(u, c)
    ensures Steps(u.game, Scene(c, mine, [RejoinHello] + rest, Joining, [], sampled), ANSWERED) ==
            Scene(c, mine, rest, Up(Mirror(c, 0), false), [], [])
  {
    var g, w := u.game, Scene(c, mine, [RejoinHello] + rest, Joining, [], sampled);
    var r := ResyncMsg(MakeResync(g, c));
    TwoSteps(g, w, ANSWERED[0], ANSWERED[1]);
    StartIsPlain(u, c);
    assert ([RejoinHello] + rest)[1..] == rest && [] + [r] == [r] && FirstResync([]).None?;
    assert Next(g, w, ANSWERED[0]) == Scene(c, mine, rest, Joining, [r], []);
    ResyncIsMirror(g, c, 0);
    assert [r][1..] == [];
  }

  lemma UplinkSent(u: Setup, c: Core, mine: History, inbox: seq<Msg>)
    requires AtStart(u, c)
    ensures Next(u.game, Scene(c, mine, inbox, Up(Mirror(c, 0), false), [], []), Move(Hacker, Pump(OneUplink))) ==
            Scene(c, mine, inbox + UPLINKED, Up(Pumped(Mirror(c, 0), OneUplink), false), [], [[Uplink(Camera)]])
  {
    StartIsPlain(u, c);
    SampledUplink(Mirror(c, 0));
  }

  /// The crash

  /** The survivor reads the third incarnation's command and commit, answers the third hello, and refuses
      the fourth incarnation's command for the same tick. */
  lemma ReadingFails(u: Setup, c: Core, hacker: Proc, sampled: History)
    requires AtStart(u, c)
    ensures Steps(u.game, Scene(c, [], UPLINKED + [RejoinHello] + UPLINKED, hacker, [], sampled), READING)
              .infiltrator.proc == Crashed(CommandAfterCommit(0))
  {
    var g := u.game;
    var w := Scene(c, [], UPLINKED + [RejoinHello] + UPLINKED, hacker, [], sampled);
    var d := Move(Infiltrator, Deliver);
    var w1 := Next(g, w, d);
    var w2 := Next(g, w1, d);
    var w3 := Next(g, w2, d);
    StartIsPlain(u, c);
    assert READING == [d] + [d, d, d] && [d, d, d] == [d] + [d, d];
    OneStep(g, w, d, [d, d, d]);
    OneStep(g, w1, d, [d, d]);
    TwoSteps(g, w2, d, d);
    assert w.infiltrator.inbox[1..] == [Commit(0), RejoinHello] + UPLINKED;
    assert w1.infiltrator.inbox[1..] == [RejoinHello] + UPLINKED;
    assert w2.infiltrator.inbox[1..] == UPLINKED;
    assert w3.infiltrator.proc.Up? && w3.infiltrator.proc.core.peerNext == 1;
  }

  const FIRST_LOSS: seq<Move> := [Move(Hacker, Die(0, false)), Move(Hacker, Rejoin)]
  const SECOND_LOSS: seq<Move> := [Move(Hacker, Die(1, false)), Move(Hacker, Rejoin)]
  const THIRD_LOSS: seq<Move> := [Move(Hacker, Die(3, false)), Move(Hacker, Rejoin)]
  const UPLINK: Move := Move(Hacker, Pump(OneUplink))
  const READING: seq<Move> :=
    [Move(Infiltrator, Deliver), Move(Infiltrator, Deliver), Move(Infiltrator, Deliver), Move(Infiltrator, Deliver)]

  /** Two incarnations that never got further than their hello, and a third that adopted the answer to the
      second's, sampled, committed and died: its commit is queued behind its own unanswered hello. */
  lemma ThreeIncarnations(u: Setup, c: Core, mine: History, hacker: Proc, toHacker: seq<Msg>)
    requires Faithful(u.game) && AtStart(u, c) && hacker.Up?
    ensures var g := u.game;
            var w1 := Steps(g, Scene(c, mine, [], hacker, toHacker, []), FIRST_LOSS);
            var w2 := Steps(g, w1, SECOND_LOSS);
            var w3 := Next(g, Steps(g, w2, ANSWERED), UPLINK);
            var w4 := Steps(g, w3, THIRD_LOSS);
            && w3 == Scene(c, mine, [RejoinHello] + UPLINKED, Up(Pumped(Mirror(c, 0), OneUplink), false), [],
                           [[Uplink(Camera)]])
            && w4 == Scene(c, mine, [RejoinHello] + (UPLINKED + [RejoinHello]), Joining, [], [[Uplink(Camera)]])
  {
    Departure(u, c, mine, [], hacker, toHacker, [], 0);
    assert [] + [RejoinHello] == [RejoinHello];
    Departure(u, c, mine, [RejoinHello], Joining, [], [], 1);
    Adopting(u, c, mine, [RejoinHello], []);
    UplinkSent(u, c, mine, [RejoinHello]);
    Departure(u, c, mine, [RejoinHello] + UPLINKED,
              Up(Pumped(Mirror(c, 0), OneUplink), false), [], [[Uplink(Camera)]], 3);
    assert [RejoinHello] + UPLINKED + [RejoinHello] == [RejoinHello] + (UPLINKED + [RejoinHello]);
  }

  /** Four incarnations of one seat, the last rejoining while a commit is queued behind an unanswered
      hello, stop the survivor with a protocol error, though every process follows the protocol. */
  lemma UnansweredHellosCanCrashTheSurvivor(u: Setup)
    requires Faithful(u.game) && u.maxSteps > 0
    ensures var g := u.game;
            var w1 := Steps(g, FreshWorld(u, 0, 0), FIRST_LOSS);
            var w2 := Steps(g, w1, SECOND_LOSS);
            var w3 := Next(g, Steps(g, w2, ANSWERED), UPLINK);
            var w4 := Steps(g, w3, THIRD_LOSS);
            var w5 := Next(g, Steps(g, w4, ANSWERED), UPLINK);
            Steps(g, w5, READING).infiltrator.proc == Crashed(CommandAfterCommit(0))
  {
    var c := NewCore(Infiltrator, 0, u.maxSteps, u.start);
    var young := Up(NewCore(Hacker, 0, u.maxSteps, u.start), false);
    assert FreshWorld(u, 0, 0) == Scene(c, [], [], young, [], []);
    ThreeIncarnations(u, c, [], young, []);
    Adopting(u, c, [], UPLINKED + [RejoinHello], [[Uplink(Camera)]]);
    UplinkSent(u, c, [], UPLINKED + [RejoinHello]);
    ReadingFails(u, c, Up(Pumped(Mirror(c, 0), OneUplink), false), [[Uplink(Camera)]]);
  }

  /// The silent divergence

  const NOTHING: Move := Move(Infiltrator, Pump(NoInput))
  const PLAYING_ON: seq<Move> := [Move(Hacker, Pump(NoInput)), Move(Hacker, Advance)]
  const CATCHING_UP: seq<Move> := [Move(Infiltrator, Deliver), Move(Infiltrator, Deliver)]
  const SETTLING: seq<Move> := [Move(Infiltrator, Deliver), Move(Infiltrator, Deliver)]

  function Played(u: Setup, c: Core, cmds: seq<Command>): Core {
    c.(run := TickRun(u.game, c.run, InputOf(cmds, NO_BUTTONS)), step := 1)
  }

  lemma OneTick(u: Setup, c: Core, cmds: seq<Command>)
    requires c.step == 0 && c.peerNext == 1 && c.nextSample == 1 && c.maxSteps > 0 && !c.ended && c.held == NO_BUTTONS
    requires c.run == u.start && !u.game.ended(u.start.sim)
      && NextCommands(c) == cmds && HeldAfter(cmds, NO_BUTTONS) == NO_BUTTONS
    ensures Advanced(u.game, c) == Played(u, c, cmds).(own := c.own - {0}, peer := c.peer - {0})
  {
    var c' := AdvanceOnce(u.game, c);
    assert c'.step == 1 && !c'.Ready();
    assert Advanced(u.game, c) == Advanced(u.game, c') == c';
  }

  /** The fourth incarnation adopts the stale hand-off, has no input for tick 0, and plays it. */
  lemma PlayingOn(u: Setup, c: Core, inbox: seq<Msg>)
    requires AtStart(u, c) && c.nextSample == 1 && !u.game.ended(u.start.sim)
    ensures Steps(u.game, Scene(c, [[]], inbox, Up(Mirror(c, 0), false), [], []), PLAYING_ON) ==
            Scene(c, [[]], inbox + [Commit(0)], Up(Played(u, Mirror(c, 0).(nextSample := 1), []), false), [], [[]])
  {
    var m := Mirror(c, 0);
    TwoSteps(u.game, Scene(c, [[]], inbox, Up(m, false), [], []), PLAYING_ON[0], PLAYING_ON[1]);
    StartIsPlain(u, c);
    SampledNothing(m);
    OneTick(u, m.(nextSample := 1), []);
    assert m.own - {0} == m.own && m.peer - {0} == m.peer;
    var before: History := [];
    assert before + [[]] == [[]];
  }

  function Uplinked(c: Core): Core {
    c.(peer := map[0 := [Uplink(Camera)]], peerNext := 1)
  }

  lemma BothRead(u: Setup, c: Core, rest: seq<Msg>, hacker: Proc)
    requires AtStart(u, c)
    ensures Steps(u.game, Scene(c, [[]], UPLINKED + rest, hacker, [], [[]]), CATCHING_UP) ==
            Scene(Uplinked(c), [[]], rest, hacker, [], [[]])
  {
    StartIsPlain(u, c);
    TwoSteps(u.game, Scene(c, [[]], UPLINKED + rest, hacker, [], [[]]), CATCHING_UP[0], CATCHING_UP[1]);
    assert (UPLINKED + rest)[1..] == [Commit(0)] + rest && ([Commit(0)] + rest)[1..] == rest;
    assert At(c.peer, 0) + [Uplink(Camera)] == [Uplink(Camera)];
    assert PushAt(c.peer, 0, Uplink(Camera)) == Uplinked(c).peer;
  }

  lemma UplinkPlayed(u: Setup, c: Core)
    requires AtStart(u, c) && c.nextSample == 1 && !u.game.ended(u.start.sim)
    ensures Advanced(u.game, Uplinked(c)) == Played(u, c.(peerNext := 1), [Uplink(Camera)])
  {
    var c2 := Uplinked(c);
    StartIsPlain(u, c);
    assert NextCommands(c2) == [Uplink(Camera)];
    assert [Uplink(Camera)][..0] == [];
    OneTick(u, c2, [Uplink(Camera)]);
    assert c2.peer - {0} == c.peer && c2.own - {0} == c.own;
  }

  /** The survivor takes the third incarnation's input for tick 0 as committed, and plays it. */
  lemma CatchingUp(u: Setup, c: Core, rest: seq<Msg>, hacker: Proc)
    requires AtStart(u, c) && c.nextSample == 1 && !u.game.ended(u.start.sim)
    ensures Next(u.game, Steps(u.game, Scene(c, [[]], UPLINKED + rest, hacker, [], [[]]), CATCHING_UP),
                 Move(Infiltrator, Advance)) ==
            Scene(Played(u, c.(peerNext := 1), [Uplink(Camera)]), [[]], rest, hacker, [], [[]])
  {
    hide AtStart, Advanced, Played, Uplinked;
    BothRead(u, c, rest, hacker);
    UplinkPlayed(u, c);
  }

  /** It then answers the last hello, which nobody waits for, and accepts the fourth incarnation's commit. */
  lemma Settling(u: Setup, c: Core, hacker: Core)
    requires c.peerNext == 1 && c.maxSteps > 0 && c.peer == map[]
    ensures var w := Steps(u.game, Scene(c, [[]], [RejoinHello, Commit(0)], Up(hacker, false), [], [[]]), SETTLING);
            w.infiltrator.proc == Up(c, false) && w.hacker.proc == Up(hacker, false) && w.infiltrator.inbox == []
  {
    var w := Scene(c, [[]], [RejoinHello, Commit(0)], Up(hacker, false), [], [[]]);
    TwoSteps(u.game, w, SETTLING[0], SETTLING[1]);
    assert OnPeerLost(c).peer == c.peer;
    assert [RejoinHello, Commit(0)][1..] == [Commit(0)] && [Commit(0)][1..] == [];
  }

  /** The same race without an error: both seats stand at step 1 with every message read, and they have
      played different inputs for tick 0. */
  lemma UnansweredHellosCanDivergeTheSeats(u: Setup)
    requires Faithful(u.game) && u.maxSteps > 0 && !u.game.ended(u.start.sim)
    ensures var g := u.game;
            var w0 := Next(g, FreshWorld(u, 0, 0), NOTHING);
            var w1 := Steps(g, w0, FIRST_LOSS);
            var w2 := Steps(g, w1, SECOND_LOSS);
            var w3 := Next(g, Steps(g, w2, ANSWERED), UPLINK);
            var w4 := Steps(g, w3, THIRD_LOSS);
            var w5 := Steps(g, Steps(g, w4, ANSWERED), PLAYING_ON);
            var w6 := Next(g, Steps(g, w5, CATCHING_UP), Move(Infiltrator, Advance));
            var w7 := Steps(g, w6, SETTLING);
            && w7.infiltrator.proc.Up? && w7.hacker.proc.Up? && w7.infiltrator.inbox == []
            && w7.infiltrator.proc.core.step == w7.hacker.proc.core.step == 1
            && w7.infiltrator.proc.core.run == TickRun(g, u.start, InputOf([Uplink(Camera)], NO_BUTTONS))
            && w7.hacker.proc.core.run == TickRun(g, u.start, InputOf([], NO_BUTTONS))
  {
    var young := NewCore(Infiltrator, 0, u.maxSteps, u.start);
    var c, hacker := Pumped(young, NoInput), Up(NewCore(Hacker, 0, u.maxSteps, u.start), false);
    SampledNothing(young);
    var before: History := [];
    assert before + [[]] == [[]] && [] + [Commit(0)] == [Commit(0)];
    assert Next(u.game, FreshWorld(u, 0, 0), NOTHING) == Scene(c, [[]], [], hacker, [Commit(0)], []);
    ThreeIncarnations(u, c, [[]], hacker, [Commit(0)]);
    Adopting(u, c, [[]], UPLINKED + [RejoinHello], [[Uplink(Camera)]]);
    PlayingOn(u, c, UPLINKED + [RejoinHello]);
    assert UPLINKED + [RejoinHello] + [Commit(0)] == UPLINKED + [RejoinHello, Commit(0)];
    var behind := Played(u, Mirror(c, 0).(nextSample := 1), []);
    CatchingUp(u, c, [RejoinHello, Commit(0)], Up(behind, false));
    Settling(u, Played(u, c.(peerNext := 1), [Uplink(Camera)]), behind);
  }
}
