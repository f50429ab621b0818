/** The deterministic run at the end of a batch session. */
module BatchRun {
  import opened Wrappers
  import opened Commands
  import opened Script
  import opened Envelope
  import opened SeatSplit
  import opened SplitMerge
  import opened Headless
  import HelloBarrier

  lemma MergingHalvesIsMergedScript(script: ScriptFile, merged: seq<seq<Command>>)
    requires |merged| == script.maxTicks
    requires forall t :: 0 <= t < script.maxTicks ==>
               merged[t] == CommandsAt(Schedule(script, Infiltrator), t) + CommandsAt(Schedule(script, Hacker), t)
    ensures merged == MergedScript(script, script.maxTicks)
  {
    forall t | 0 <= t < script.maxTicks
      ensures merged[t] == MergedScript(script, script.maxTicks)[t]
    {
      ScheduleIsTheSeatsPart(script, Infiltrator, t);
      ScheduleIsTheSeatsPart(script, Hacker, t);
      MergedScriptAt(script, script.maxTicks, t);
    }
  }

  /** Either seat, from its own schedule and the one it collected, computes the same world. */
  method RunCollected(g: Game, script: ScriptFile, role: Role, collected: seq<ScheduledCommand>)
    returns (r: Result<Run, string>)
    ensures g.build(script).Failure? ==> r == g.build(script)
    ensures g.build(script).Success? && collected == Schedule(script, Other(role)) ==>
              r == Success(Play(g, g.build(script).value, FoldTicks(MergedScript(script, script.maxTicks)).0))
  {
    hide Schedule, FoldTicks, MergedScript, OwnSchedule;
    var schedule := SeatSchedule(script, role);
    var infiltrator, hacker := schedule, collected;
    if role == Hacker {
      infiltrator, hacker := collected, schedule;
    }
    var merged := MergedByTick(script.maxTicks, infiltrator, hacker);
    r := g.build(script);
    if r.Failure? {
      return;
    }
    if collected == Schedule(script, Other(role)) {
      MergingHalvesIsMergedScript(script, merged);
    }
    var inputs := TickInputs(merged);
    var run, i := r.value, 0;
    while i < |inputs| && !g.ended(run.sim)
      invariant i <= |inputs|
      invariant Play(g, run, inputs[i..]) == Play(g, r.value, inputs)
    {
      assert inputs[i..][1..] == inputs[i + 1..];
      run, i := TickRun(g, run, inputs[i]), i + 1;
    }
    r := Success(run);
  }

  /** The opening position of a batch session on one script. */
  function ScriptedOpening(script: ScriptFile): HelloBarrier.Session {
    var mine, theirs := Schedule(script, Infiltrator), Schedule(script, Hacker);
    HelloBarrier.Opening(HelloFor(Infiltrator, script, |mine|), mine, HelloFor(Hacker, script, |theirs|), theirs)
  }

  /** However a scripted session interleaves, a seat that completes holds both halves of the script. */
  lemma CompletedSeatsHoldTheScript(script: ScriptFile, steps: seq<(Role, HelloBarrier.Step)>)
    ensures var e := HelloBarrier.Play(ScriptedOpening(script), steps);
            && (e.infiltrator.phase.Done? ==> e.infiltrator.phase.peer == Schedule(script, Hacker))
            && (e.hacker.phase.Done? ==> e.hacker.phase.peer == Schedule(script, Infiltrator))
  {
    HelloBarrier.CollectedIsTheSchedule(ScriptedOpening(script), steps);
  }
}
