/** The game as an abstract deterministic machine, and the reference run every networked run must equal. */
module Headless {
  import opened Wrappers
  import opened Commands
  import opened Script
  import opened SeatSplit

  /** The simulation's state with its event buffer drained, as every public call leaves it. */
  type Sim(!new)
  type Event(==, !new)
  type Snapshot(==, !new)

  datatype Game = Game(
    build: ScriptFile -> Result<Run, string>,
    tick: (Sim, TickInput) -> (Sim, seq<Event>),
    ended: Sim -> bool,
    snapshot: Sim -> Snapshot,
    restore: Snapshot -> Option<Sim>)

  /** A simulation and its full event log. */
  datatype Run = Run(sim: Sim, log: seq<Event>)

  /** The one fact assumed of the simulation: a snapshot restores to the state it was taken from. */
  ghost predicate Faithful(g: Game) {
    forall s: Sim :: g.restore(g.snapshot(s)) == Some(s)
  }

  function TickRun(g: Game, run: Run, input: TickInput): Run {
    var (sim, events) := g.tick(run.sim, input);
    Run(sim, run.log + events)
  }

  /** Tick through the inputs, never ticking an ended simulation. */
  function Play(g: Game, run: Run, inputs: seq<TickInput>): Run
    decreases |inputs|
  {
    if inputs == [] || g.ended(run.sim) then run else Play(g, TickRun(g, run, inputs[0]), inputs[1..])
  }

  /** `simulate`: the whole script in one process. */
  method Simulate(g: Game, script: ScriptFile) returns (r: Result<Run, string>)
    ensures g.build(script).Failure? ==> r == g.build(script)
    ensures g.build(script).Success? ==> r == Success(Play(g, g.build(script).value, Dense(script)))
  {
    r := g.build(script);
    if r.Failure? {
      return;
    }
    var run := r.value;
    var inputs := Expand(script);
    var i := 0;
    while i < |inputs| && !g.ended(run.sim)
      invariant i <= |inputs|
      invariant Play(g, run, inputs[i..]) == Play(g, r.value, inputs)
    {
      assert inputs[i..][1..] == inputs[i + 1..];
      run, i := TickRun(g, run, inputs[i]), i + 1;
    }
    r := Success(run);
  }

  /// Running merged command lists

  /** A run together with the fold's held set. */
  datatype Progress = Progress(run: Run, held: Buttons)

  function TickCommands(g: Game, p: Progress, cmds: seq<Command>): Progress {
    Progress(TickRun(g, p.run, InputOf(cmds, p.held)), HeldAfter(cmds, p.held))
  }

  /** The state after executing every tick of `perTick`. */
  function Exec(g: Game, start: Run, perTick: seq<seq<Command>>): Progress {
    if perTick == [] then Progress(start, NO_BUTTONS)
    else TickCommands(g, Exec(g, start, perTick[..|perTick| - 1]), perTick[|perTick| - 1])
  }

  lemma {:induction false} ExecHoldsButtonsOnly(g: Game, start: Run, perTick: seq<seq<Command>>)
    ensures Exec(g, start, perTick).held.Clean()
    ensures Exec(g, start, perTick).held == FoldTicks(perTick).1
  {
    if perTick != [] {
      var front := perTick[..|perTick| - 1];
      ExecHoldsButtonsOnly(g, start, front);
      HeldStaysClean(perTick[|perTick| - 1], Exec(g, start, front).held);
    }
  }

  /** The simulation was live before each of the first `n` ticks. */
  predicate LiveUpTo(g: Game, start: Run, perTick: seq<seq<Command>>, n: nat)
    requires n <= |perTick|
  {
    forall k :: 0 <= k < n ==> !g.ended(Exec(g, start, perTick[..k]).run.sim)
  }

  lemma {:induction false} FoldTicksAt(perTick: seq<seq<Command>>, k: nat)
    requires k < |perTick|
    ensures FoldTicks(perTick).0[k] == InputOf(perTick[k], FoldTicks(perTick[..k]).1)
  {
    if k < |perTick| - 1 {
      var front := perTick[..|perTick| - 1];
      FoldTicksAt(front, k);
      assert front[..k] == perTick[..k];
    }
  }

  lemma {:induction false} PlayFollowsExec(g: Game, start: Run, perTick: seq<seq<Command>>, n: nat)
    requires n <= |perTick| && LiveUpTo(g, start, perTick, n)
    ensures Play(g, start, FoldTicks(perTick).0) ==
            Play(g, Exec(g, start, perTick[..n]).run, FoldTicks(perTick).0[n..])
  {
    hide InputOf, HeldAfter;
    var inputs := FoldTicks(perTick).0;
    if n == 0 {
      assert inputs[0..] == inputs;
    } else {
      hide FoldTicks;
      PlayFollowsExec(g, start, perTick, n - 1);
      assert inputs[n - 1..][1..] == inputs[n..];
      assert perTick[..n][..n - 1] == perTick[..n - 1];
      FoldTicksAt(perTick, n - 1);
      ExecHoldsButtonsOnly(g, start, perTick[..n - 1]);
    }
  }

  /** Executing until the ticks run out or the simulation ends is playing the folded inputs. */
  lemma ExecIsPlay(g: Game, start: Run, perTick: seq<seq<Command>>, n: nat)
    requires n <= |perTick| && LiveUpTo(g, start, perTick, n)
    requires n == |perTick| || g.ended(Exec(g, start, perTick[..n]).run.sim)
    ensures Play(g, start, FoldTicks(perTick).0) == Exec(g, start, perTick[..n]).run
  {
    PlayFollowsExec(g, start, perTick, n);
  }
}
