/** Splitting a script by seat and re-merging it, against `expand` on the whole script. */
module SplitMerge {
  import opened Wrappers
  import opened Commands
  import opened Script
  import opened Envelope
  import opened SeatSplit

  /** A stream with the infiltrator's commands pulled to the front, each seat in its own order. */
  function Partitioned(cmds: seq<Command>): seq<Command> {
    SentBy(cmds, Infiltrator) + SentBy(cmds, Hacker)
  }

  /** No hacker command comes before an infiltrator-authored one. */
  predicate InfiltratorFirst(cmds: seq<Command>) {
    forall i, j :: 0 <= i < j < |cmds| ==>
      !(ScriptedSender(cmds[i]) == Hacker && ScriptedSender(cmds[j]) == Infiltrator)
  }

  /** The immediates a script fires at tick `t`, in authored order. */
  function FiredAt(script: ScriptFile, t: int): seq<Command> {
    ImmediatesOf(LinesCommands(LinesAt(script.commands, t)))
  }

  /** Every tick of the run lists its infiltrator-authored immediates before its hacker ones. */
  predicate Orderly(script: ScriptFile) {
    forall t :: 0 <= t < script.maxTicks ==> InfiltratorFirst(FiredAt(script, t))
  }

  /// Each seat's half of a stream

  lemma {:induction false} InfiltratorHalf(cmds: seq<Command>, held: Buttons)
    ensures HeldAfter(SentBy(cmds, Infiltrator), held) == HeldAfter(cmds, held)
    ensures EdgesOf(SentBy(cmds, Infiltrator)) == EdgesOf(cmds)
  {
    if cmds != [] {
      var front, last := cmds[..|cmds| - 1], cmds[|cmds| - 1];
      InfiltratorHalf(front, held);
      var half := SentBy(front, Infiltrator);
      assert half + [] == half;
      assert (half + [last])[..|half|] == half;
    }
  }

  lemma {:induction false} HackerHalf(cmds: seq<Command>)
    ensures NoHolds(SentBy(cmds, Hacker))
    ensures EdgesOf(SentBy(cmds, Hacker)) == []
  {
    if cmds != [] {
      var front, last := cmds[..|cmds| - 1], cmds[|cmds| - 1];
      HackerHalf(front);
      var half := SentBy(front, Hacker);
      assert half + [] == half;
      assert (half + [last])[..|half|] == half;
    }
  }

  lemma {:induction false} HalfOfImmediates(cmds: seq<Command>, role: Role)
    ensures ImmediatesOf(SentBy(cmds, role)) == SentBy(ImmediatesOf(cmds), role)
  {
    if cmds != [] {
      var front, last := cmds[..|cmds| - 1], cmds[|cmds| - 1];
      HalfOfImmediates(front, role);
      var half, queued := SentBy(front, role), ImmediatesOf(front);
      assert half + [] == half && queued + [] == queued;
      assert (half + [last])[..|half|] == half;
      SentBySnoc(queued, last, role);
    }
  }

  /** Re-merged, a stream keeps its held set and edges, and has its immediates partitioned by author. */
  lemma RemergedMeaning(cmds: seq<Command>, held: Buttons)
    ensures InputOf(Partitioned(cmds), held) ==
            TickInput(HeldAfter(cmds, held), EdgesOf(cmds), Partitioned(ImmediatesOf(cmds)))
  {
    var mine, theirs := SentBy(cmds, Infiltrator), SentBy(cmds, Hacker);
    InfiltratorHalf(cmds, held);
    HackerHalf(cmds);
    NoHoldsKeepHeld(theirs, HeldAfter(mine, held));
    HeldIsSequential(mine, theirs, held);
    EdgesAreSequential(mine, theirs);
    ImmediatesAreSequential(mine, theirs);
    HalfOfImmediates(cmds, Infiltrator);
    HalfOfImmediates(cmds, Hacker);
  }

  lemma {:induction false} SendersSeparate(cmds: seq<Command>, role: Role)
    ensures forall c :: c in SentBy(cmds, role) ==> ScriptedSender(c) == role
  {
    hide ScriptedSender;
    if cmds != [] {
      SendersSeparate(cmds[..|cmds| - 1], role);
    }
  }

  lemma {:induction false} OneSendersStream(cmds: seq<Command>, role: Role)
    requires forall i :: 0 <= i < |cmds| ==> ScriptedSender(cmds[i]) == role
    ensures SentBy(cmds, role) == cmds && SentBy(cmds, Other(role)) == []
  {
    hide ScriptedSender;
    if cmds != [] {
      var front := cmds[..|cmds| - 1];
      OneSendersStream(front, role);
      assert cmds == front + [cmds[|cmds| - 1]];
    }
  }

  lemma PartsInOrder(mine: seq<Command>, theirs: seq<Command>)
    requires forall c :: c in mine ==> ScriptedSender(c) == Infiltrator
    requires forall c :: c in theirs ==> ScriptedSender(c) == Hacker
    ensures InfiltratorFirst(mine + theirs)
  {
  }

  /** Partitioning leaves a stream alone exactly when it is infiltrator-first already. */
  lemma PartitionIsIdentityIff(cmds: seq<Command>)
    ensures Partitioned(cmds) == cmds <==> InfiltratorFirst(cmds)
  {
    if InfiltratorFirst(cmds) {
      PartitionFixes(cmds);
    }
    SendersSeparate(cmds, Infiltrator);
    SendersSeparate(cmds, Hacker);
    PartsInOrder(SentBy(cmds, Infiltrator), SentBy(cmds, Hacker));
  }

  lemma {:induction false} PartitionFixes(cmds: seq<Command>)
    requires InfiltratorFirst(cmds)
    ensures Partitioned(cmds) == cmds
  {
    if cmds != [] {
      var front, last := cmds[..|cmds| - 1], cmds[|cmds| - 1];
      PartitionFixes(front);
      assert cmds == front + [last];
      if ScriptedSender(last) == Infiltrator {
        OneSendersStream(cmds, Infiltrator);
      }
    }
  }

  /// The whole run

  /** What both seats fold at tick `t` of a scripted run. */
  function MergedTick(script: ScriptFile, t: int): seq<Command> {
    Partitioned(WireTick(script.commands, t))
  }

  function MergedScript(script: ScriptFile, n: nat): (r: seq<seq<Command>>)
    ensures |r| == n
  {
    if n == 0 then [] else MergedScript(script, n - 1) + [MergedTick(script, n - 1)]
  }

  function PartitionedDense(script: ScriptFile, t: int): TickInput {
    var dense := DenseTick(script.commands, t);
    dense.(immediates := Partitioned(dense.immediates))
  }

  lemma MergedTickMeaning(script: ScriptFile, t: nat)
    ensures InputOf(MergedTick(script, t), ButtonsNamed(HeldNames(script.commands, t - 1))) ==
            PartitionedDense(script, t)
  {
    var lines, before := LinesAt(script.commands, t), HeldNames(script.commands, t - 1);
    var held := ButtonsNamed(before);
    NamedButtonsAreClean(before);
    WireLinesMeaning(lines, held);
    HeldThroughNames(lines, before);
    RemergedMeaning(WireTick(script.commands, t), held);
  }

  /** Split, carried and re-merged, a script has `expand`'s buttons and edges on every tick, and its
      immediates stably partitioned by author. */
  lemma {:induction false} SplitMergePreservesMeaning(script: ScriptFile, n: nat, t: nat)
    requires t < n
    ensures FoldTicks(MergedScript(script, n)).0[t] == PartitionedDense(script, t)
    ensures FoldTicks(MergedScript(script, n)).1 == ButtonsNamed(HeldNames(script.commands, n - 1))
  {
    var front := MergedScript(script, n - 1);
    assert MergedScript(script, n)[..n - 1] == front;
    if n > 1 {
      SplitMergePreservesMeaning(script, n - 1, if t < n - 1 then t else 0);
    } else {
      assert HeldNames(script.commands, -1) == [];
    }
    MergedTickMeaning(script, n - 1);
  }

  /** The pipeline is `expand` exactly when every tick is infiltrator-first. */
  lemma SplitMergeEqualsExpandIff(script: ScriptFile)
    ensures FoldTicks(MergedScript(script, script.maxTicks)).0 == Dense(script) <==> Orderly(script)
  {
    var n := script.maxTicks;
    var inputs := FoldTicks(MergedScript(script, n)).0;
    forall t | 0 <= t < n
      ensures inputs[t] == Dense(script)[t] <==> InfiltratorFirst(FiredAt(script, t))
    {
      SplitMergePreservesMeaning(script, n, t);
      DenseTicksAt(script.commands, n, t);
      PartitionIsIdentityIff(FiredAt(script, t));
    }
  }

  lemma MergedScriptAt(script: ScriptFile, n: nat, t: nat)
    requires t < n
    ensures MergedScript(script, n)[t] == MergedTick(script, t)
  {
  }

  /** Both seats' schedules, merged and folded: what each seat of a batch session runs. */
  method SplitAndMerge(script: ScriptFile) returns (inputs: seq<TickInput>)
    ensures inputs == FoldTicks(MergedScript(script, script.maxTicks)).0
    ensures inputs == Dense(script) <==> Orderly(script)
  {
    var infiltrator := SeatSchedule(script, Infiltrator);
    var hacker := SeatSchedule(script, Hacker);
    var merged := MergedByTick(script.maxTicks, infiltrator, hacker);
    forall t | 0 <= t < script.maxTicks
      ensures merged[t] == MergedScript(script, script.maxTicks)[t]
    {
      ScheduleIsTheSeatsPart(script, Infiltrator, t);
      ScheduleIsTheSeatsPart(script, Hacker, t);
      MergedScriptAt(script, script.maxTicks, t);
    }
    assert merged == MergedScript(script, script.maxTicks);
    SplitMergeEqualsExpandIff(script);
    inputs := TickInputs(merged);
  }

  lemma CameraIsAnUplink()
    ensures PressCommands(["camera"]) == [Uplink(Camera)]
  {
    CanonicalNamesAreTokens("camera");
    assert PressCommand("camera") == Some(Uplink(Camera));
    assert ["camera"][..0] == [];
  }

  lemma UplinkThenHook()
    ensures ImmediatesOf([Uplink(Camera), ForceCrisis]) == [Uplink(Camera), ForceCrisis]
  {
    assert [Uplink(Camera), ForceCrisis][..1] == [Uplink(Camera)];
    assert [Uplink(Camera)][..0] == [];
  }

  lemma UplinkBeforeHook()
    ensures InfiltratorFirst([Uplink(Camera)]) && !InfiltratorFirst([Uplink(Camera), ForceCrisis])
  {
    var cmds := [Uplink(Camera), ForceCrisis];
    assert ScriptedSender(cmds[0]) == Hacker && ScriptedSender(cmds[1]) == Infiltrator;
  }

  lemma OneLineFires(line: ScriptLine)
    ensures LinesCommands([line]) == LineCommands(line)
  {
    hide LineCommands;
    assert [line][..0] == [];
  }

  /** A test hook is authored by the infiltrator and fires after its line's presses, so one line with a
      hacker press and a hook is enough to break the order. */
  lemma HookAfterUplinkIsNotOrderly(script: ScriptFile)
    requires script.maxTicks > 0
    requires script.commands == [ScriptLine(0, None, Some(["camera"]), Some(HookCrisis))]
    ensures !Orderly(script)
    ensures InfiltratorFirst(PressCommands(script.commands[0].press.value))
  {
    hide PressCommands, ImmediatesOf, LinesCommands, LinesAt, InfiltratorFirst;
    var line := script.commands[0];
    CameraIsAnUplink();
    AllAt([line], 0);
    OneLineFires(line);
    assert LineCommands(line) == [Uplink(Camera), ForceCrisis];
    UplinkThenHook();
    UplinkBeforeHook();
    assert FiredAt(script, 0) == [Uplink(Camera), ForceCrisis];
  }
}
