/** Splitting one script across two seats and re-merging the halves, tick by tick. */
module SeatSplit {
  import opened Wrappers
  import opened Commands
  import opened Script
  import opened Envelope

  datatype ScheduledCommand = ScheduledCommand(at: nat, cmd: Command)

  const ALL_BUTTONS: seq<Button> := [Left, Right, Crouch, Sprint, Interact]

  /// What one line puts on the wire

  /** Diffs for the first `n` buttons, in declaration order, that take `held` to `next`. */
  function Diffs(held: Buttons, next: Buttons, n: nat): seq<Command>
    requires n <= 5
  {
    if n == 0 then []
    else
      var b := ALL_BUTTONS[n - 1];
      Diffs(held, next, n - 1) + (if held.Has(b) != next.Has(b) then [SetButton(b, next.Has(b))] else [])
  }

  function HeldBeyond(line: ScriptLine, held: Buttons): Buttons {
    if line.hold.Some? then ButtonsNamed(line.hold.value) else held
  }

  /** Hold diffs, then presses, then the test hook: everything the line sends, before the seats divide it. */
  function WireLine(line: ScriptLine, held: Buttons): seq<Command> {
    Diffs(held, HeldBeyond(line, held), 5) + LineCommands(line)
  }

  function HeldThrough(lines: seq<ScriptLine>, held: Buttons): Buttons {
    if lines == [] then held else HeldBeyond(lines[|lines| - 1], HeldThrough(lines[..|lines| - 1], held))
  }

  function WireLines(lines: seq<ScriptLine>, held: Buttons): seq<Command> {
    if lines == [] then []
    else
      var front := lines[..|lines| - 1];
      WireLines(front, held) + WireLine(lines[|lines| - 1], HeldThrough(front, held))
  }

  /** The commands of a stream that `role` sends, in stream order. */
  function SentBy(cmds: seq<Command>, role: Role): seq<Command> {
    if cmds == [] then []
    else
      var last := cmds[|cmds| - 1];
      SentBy(cmds[..|cmds| - 1], role) + (if ScriptedSender(last) == role then [last] else [])
  }

  lemma {:induction false} SentByConcat(a: seq<Command>, b: seq<Command>, role: Role)
    ensures SentBy(a + b, role) == SentBy(a, role) + SentBy(b, role)
  {
    if b == [] {
      assert a + b == a;
    } else {
      var front, last := b[..|b| - 1], b[|b| - 1];
      assert (a + b)[..|a + b| - 1] == a + front && (a + b)[|a + b| - 1] == last;
      SentByConcat(a, front, role);
    }
  }

  lemma SentBySnoc(cmds: seq<Command>, c: Command, role: Role)
    ensures SentBy(cmds + [c], role) == SentBy(cmds, role) + (if ScriptedSender(c) == role then [c] else [])
  {
    assert (cmds + [c])[..|cmds|] == cmds;
  }

  /// A seat's schedule

  function Tagged(at: nat, cmds: seq<Command>): seq<ScheduledCommand> {
    seq(|cmds|, i requires 0 <= i < |cmds| => ScheduledCommand(at, cmds[i]))
  }

  /** The scheduled commands `role` sends at tick `at` out of the stream `cmds`. */
  function Sends(at: nat, cmds: seq<Command>, role: Role): seq<ScheduledCommand> {
    Tagged(at, SentBy(cmds, role))
  }

  lemma SendsSnoc(at: nat, cmds: seq<Command>, c: Command, role: Role)
    ensures Sends(at, cmds + [c], role) ==
            Sends(at, cmds, role) + (if ScriptedSender(c) == role then [ScheduledCommand(at, c)] else [])
  {
    SentBySnoc(cmds, c, role);
  }

  lemma SendsConcat(at: nat, a: seq<Command>, b: seq<Command>, role: Role)
    ensures Sends(at, a + b, role) == Sends(at, a, role) + Sends(at, b, role)
  {
    SentByConcat(a, b, role);
  }

  function ScheduleOf(lines: seq<ScriptLine>, role: Role): seq<ScheduledCommand> {
    if lines == [] then []
    else
      var front, last := lines[..|lines| - 1], lines[|lines| - 1];
      ScheduleOf(front, role) + Sends(last.at, WireLine(last, HeldThrough(front, NO_BUTTONS)), role)
  }

  /** The lines before the first one authored at `bound` or later. */
  function LinesUntil(lines: seq<ScriptLine>, bound: nat): (r: seq<ScriptLine>)
    ensures r <= lines
    ensures forall x :: x in r ==> x.at < bound
    ensures r < lines ==> lines[|r|].at >= bound
  {
    if lines == [] || lines[0].at >= bound then [] else [lines[0]] + LinesUntil(lines[1..], bound)
  }

  function Schedule(script: ScriptFile, role: Role): seq<ScheduledCommand> {
    ScheduleOf(LinesUntil(SortByTick(script.commands), script.maxTicks), role)
  }

  /** What a schedule holds for one tick, in send order. */
  function CommandsAt(schedule: seq<ScheduledCommand>, t: int): seq<Command> {
    if schedule == [] then []
    else
      var last := schedule[|schedule| - 1];
      CommandsAt(schedule[..|schedule| - 1], t) + (if last.at == t then [last.cmd] else [])
  }

  lemma {:induction false} CommandsAtConcat(a: seq<ScheduledCommand>, b: seq<ScheduledCommand>, t: int)
    ensures CommandsAt(a + b, t) == CommandsAt(a, t) + CommandsAt(b, t)
  {
    if b == [] {
      assert a + b == a;
    } else {
      var front, last := b[..|b| - 1], b[|b| - 1];
      assert (a + b)[..|a + b| - 1] == a + front && (a + b)[|a + b| - 1] == last;
      CommandsAtConcat(a, front, t);
    }
  }

  lemma {:induction false} CommandsAtTagged(at: nat, cmds: seq<Command>, t: int)
    ensures CommandsAt(Tagged(at, cmds), t) == if at == t then cmds else []
  {
    if cmds != [] {
      var front := cmds[..|cmds| - 1];
      assert Tagged(at, cmds)[..|cmds| - 1] == Tagged(at, front);
      CommandsAtTagged(at, front, t);
      assert front + [cmds[|cmds| - 1]] == cmds;
    }
  }

  /** One send, if the command is this seat's to send. */
  method SendOne(at: nat, c: Command, role: Role, out: seq<ScheduledCommand>, ghost sent: seq<Command>)
    returns (out': seq<ScheduledCommand>)
    requires out == Sends(at, sent, role)
    ensures out' == Sends(at, sent + [c], role)
  {
    SendsSnoc(at, sent, c, role);
    out' := if ScriptedSender(c) == role then out + [ScheduledCommand(at, c)] else out;
  }

  /** `seat_schedule`, its three inner parts first: the hold diffs ... */
  method SendDiffs(at: nat, held: Buttons, next: Buttons, role: Role) returns (out: seq<ScheduledCommand>)
    ensures out == Sends(at, Diffs(held, next, 5), role)
  {
    out := [];
    for i := 0 to 5
      invariant out == Sends(at, Diffs(held, next, i), role)
    {
      var b := ALL_BUTTONS[i];
      if held.Has(b) != next.Has(b) {
        out := SendOne(at, SetButton(b, next.Has(b)), role, out, Diffs(held, next, i));
      } else {
        assert Diffs(held, next, i) + [] == Diffs(held, next, i);
      }
    }
  }

  /** ... the presses ... */
  method SendPresses(at: nat, names: seq<string>, role: Role) returns (out: seq<ScheduledCommand>)
    ensures out == Sends(at, PressCommands(names), role)
  {
    hide PressCommand;
    out := [];
    for i := 0 to |names|
      invariant out == Sends(at, PressCommands(names[..i]), role)
    {
      assert names[..i + 1][..i] == names[..i];
      var fired := PressCommand(names[i]);
      if fired.Some? {
        out := SendOne(at, fired.value, role, out, PressCommands(names[..i]));
      } else {
        assert PressCommands(names[..i]) + [] == PressCommands(names[..i]);
      }
    }
    assert names[..|names|] == names;
  }

  /** ... presses and the hook ... */
  method SendFired(line: ScriptLine, role: Role) returns (out: seq<ScheduledCommand>)
    ensures out == Sends(line.at, LineCommands(line), role)
  {
    ghost var presses := [];
    out := [];
    if line.press.Some? {
      presses := PressCommands(line.press.value);
      out := SendPresses(line.at, line.press.value, role);
    }
    if line.test.Some? {
      out := SendOne(line.at, HookCommand(line.test.value), role, out, presses);
    } else {
      assert LineCommands(line) == presses;
    }
  }

  /** ... and one whole line, whose hold replaces the held set. */
  method SendLine(line: ScriptLine, held: Buttons, role: Role)
    returns (out: seq<ScheduledCommand>, held': Buttons)
    ensures held' == HeldBeyond(line, held)
    ensures out == Sends(line.at, WireLine(line, held), role)
  {
    held' := held;
    if line.hold.Some? {
      held' := NamedButtons(line.hold.value);
    }
    var diffs := SendDiffs(line.at, held, held', role);
    var fired := SendFired(line, role);
    SendsConcat(line.at, Diffs(held, held', 5), LineCommands(line), role);
    out := diffs + fired;
  }

  /// Whose command it is

  /** The hacker's own commands: the uplink, the pivots, the net view and its half of the signal network. */
  predicate HackersOwn(c: Command) {
    || c.Uplink? || c.Pivot? || c.Unpivot? || c.NetSsh? || c.NetHack?
    || (c.Signal? && c.op.issuer == SignalHacker)
  }

  /** Only commands of the seat's own side, at ticks of the run, in tick order. */
  predicate OwnSchedule(schedule: seq<ScheduledCommand>, role: Role, maxTicks: nat) {
    && (forall s :: s in schedule ==> (HackersOwn(s.cmd) <==> role == Hacker) && s.at < maxTicks)
    && (forall i, j :: 0 <= i < j < |schedule| ==> schedule[i].at <= schedule[j].at)
  }

  lemma {:induction false} SentByOwners(cmds: seq<Command>, role: Role)
    ensures forall c :: c in SentBy(cmds, role) ==> (HackersOwn(c) <==> role == Hacker)
  {
    if cmds != [] {
      SentByOwners(cmds[..|cmds| - 1], role);
    }
  }

  lemma {:induction false} ScheduleIsOwn(lines: seq<ScriptLine>, role: Role, maxTicks: nat)
    requires Sorted(lines) && forall i :: 0 <= i < |lines| ==> lines[i].at < maxTicks
    ensures OwnSchedule(ScheduleOf(lines, role), role, maxTicks)
    ensures forall s :: s in ScheduleOf(lines, role) ==> lines != [] && s.at <= lines[|lines| - 1].at
  {
    hide HackersOwn, WireLine, SentBy;
    if lines != [] {
      var front, last := lines[..|lines| - 1], lines[|lines| - 1];
      ScheduleIsOwn(front, role, maxTicks);
      SentByOwners(WireLine(last, HeldThrough(front, NO_BUTTONS)), role);
    }
  }

  lemma SchedulesAreOwn(script: ScriptFile, role: Role)
    ensures OwnSchedule(Schedule(script, role), role, script.maxTicks)
  {
    hide OwnSchedule;
    SortIsStable(script.commands, 0);
    ScheduleIsOwn(LinesUntil(SortByTick(script.commands), script.maxTicks), role, script.maxTicks);
  }

  method SeatSchedule(script: ScriptFile, role: Role) returns (out: seq<ScheduledCommand>)
    ensures out == Schedule(script, role)
    ensures OwnSchedule(out, role, script.maxTicks)
  {
    SchedulesAreOwn(script, role);
    hide WireLine, HeldBeyond, Sends, SortByTick, OwnSchedule;
    var lines := SortByTick(script.commands);
    ghost var live := LinesUntil(lines, script.maxTicks);
    var held := NO_BUTTONS;
    out := [];
    var i := 0;
    assert live[..i] == [];
    while i < |lines| && lines[i].at < script.maxTicks
      invariant i <= |live|
      invariant held == HeldThrough(live[..i], NO_BUTTONS)
      invariant out == ScheduleOf(live[..i], role)
    {
      assert lines[i] == live[i];
      assert live[..i + 1][..i] == live[..i];
      var sent, held' := SendLine(lines[i], held, role);
      out, held, i := out + sent, held', i + 1;
    }
    assert live[..|live|] == live;
  }

  /// Merging

  /** `merged_by_tick`: one slot per tick, the infiltrator's commands pushed first, then the hacker's. */
  method MergedByTick(maxTicks: nat, infiltrator: seq<ScheduledCommand>, hacker: seq<ScheduledCommand>)
    returns (merged: seq<seq<Command>>)
    ensures |merged| == maxTicks
    ensures forall t :: 0 <= t < maxTicks ==> merged[t] == CommandsAt(infiltrator, t) + CommandsAt(hacker, t)
  {
    var perTick := new seq<Command>[maxTicks](_ => []);
    PushAll(perTick, infiltrator);
    PushAll(perTick, hacker);
    merged := perTick[..];
  }

  /** One seat's pass: a command past the end of the run finds no slot and is skipped. */
  method PushAll(perTick: array<seq<Command>>, seat: seq<ScheduledCommand>)
    modifies perTick
    ensures forall t :: 0 <= t < perTick.Length ==> perTick[t] == old(perTick[t]) + CommandsAt(seat, t)
  {
    for i := 0 to |seat|
      invariant forall t :: 0 <= t < perTick.Length ==> perTick[t] == old(perTick[t]) + CommandsAt(seat[..i], t)
    {
      assert seat[..i + 1][..i] == seat[..i];
      if seat[i].at < perTick.Length {
        perTick[seat[i].at] := perTick[seat[i].at] + [seat[i].cmd];
      }
    }
    assert seat[..|seat|] == seat;
  }

  /** The inputs of a merged schedule, with the held set threaded through its ticks. */
  function FoldTicks(perTick: seq<seq<Command>>): (r: (seq<TickInput>, Buttons))
    ensures |r.0| == |perTick|
  {
    if perTick == [] then ([], NO_BUTTONS)
    else
      var (inputs, held) := FoldTicks(perTick[..|perTick| - 1]);
      var last := perTick[|perTick| - 1];
      (inputs + [InputOf(last, held)], HeldAfter(last, held))
  }

  method TickInputs(perTick: seq<seq<Command>>) returns (inputs: seq<TickInput>)
    ensures inputs == FoldTicks(perTick).0
  {
    var held := NO_BUTTONS;
    inputs := [];
    for i := 0 to |perTick|
      invariant (inputs, held) == FoldTicks(perTick[..i])
    {
      assert perTick[..i + 1][..i] == perTick[..i];
      var input, held' := Fold(perTick[i], held);
      inputs, held := inputs + [input], held';
    }
    assert perTick[..|perTick|] == perTick;
  }

  /// Hold replacement against diffs

  lemma {:induction false} DiffsSetButtons(held: Buttons, next: Buttons, n: nat, j: nat)
    requires n <= 5 && j < 5
    ensures HeldAfter(Diffs(held, next, n), held).Has(ALL_BUTTONS[j]) ==
            (if j < n then next else held).Has(ALL_BUTTONS[j])
  {
    hide Buttons.Has, Buttons.Set;
    if n > 0 {
      hide Diffs, HeldAfter;
      DiffsSetButtons(held, next, n - 1, j);
      DiffsStep(held, next, n - 1);
      if j != n - 1 {
        ButtonsDiffer(j, n - 1);
      }
    }
  }

  lemma ButtonsDiffer(i: nat, j: nat)
    requires i < 5 && j < 5 && i != j
    ensures ALL_BUTTONS[i] != ALL_BUTTONS[j]
  {
  }

  lemma DiffsStep(held: Buttons, next: Buttons, n: nat)
    requires n < 5
    ensures var b := ALL_BUTTONS[n];
            HeldAfter(Diffs(held, next, n + 1), held) ==
            if held.Has(b) != next.Has(b) then HeldAfter(Diffs(held, next, n), held).Set(b, next.Has(b))
            else HeldAfter(Diffs(held, next, n), held)
  {
    hide Buttons.Has, Buttons.Set;
    var before, b := Diffs(held, next, n), ALL_BUTTONS[n];
    if held.Has(b) != next.Has(b) {
      assert Diffs(held, next, n + 1)[..|before|] == before;
    } else {
      assert Diffs(held, next, n + 1) == before;
    }
  }

  lemma {:induction false} DiffsStayClean(held: Buttons, next: Buttons, n: nat)
    requires n <= 5 && held.Clean()
    ensures HeldAfter(Diffs(held, next, n), held).Clean()
  {
    hide Buttons.Has, Buttons.Clean;
    if n > 0 {
      DiffsStayClean(held, next, n - 1);
      DiffsStep(held, next, n - 1);
    }
  }

  /** Applying a hold line's diffs gives exactly the set the line replaces the held set with. */
  lemma DiffsReplace(held: Buttons, next: Buttons)
    requires held.Clean() && next.Clean()
    ensures HeldAfter(Diffs(held, next, 5), held) == next
  {
    hide Buttons.Has, Buttons.Clean, Diffs, HeldAfter;
    DiffsStayClean(held, next, 5);
    var after := HeldAfter(Diffs(held, next, 5), held);
    forall b: Button
      ensures after.Has(b) == next.Has(b)
    {
      var j := match b case Left => 0 case Right => 1 case Crouch => 2 case Sprint => 3 case Interact => 4;
      DiffsSetButtons(held, next, 5, j);
      assert ALL_BUTTONS[j] == b;
    }
    HeldSetsAreExtensional(after, next);
  }

  predicate NoHolds(cmds: seq<Command>) {
    forall i :: 0 <= i < |cmds| ==> !cmds[i].SetButton?
  }

  lemma {:induction false} NoHoldsKeepHeld(cmds: seq<Command>, held: Buttons)
    requires NoHolds(cmds)
    ensures HeldAfter(cmds, held) == held
  {
    if cmds != [] {
      NoHoldsKeepHeld(cmds[..|cmds| - 1], held);
    }
  }

  lemma {:induction false} PressesHoldNothing(names: seq<string>)
    ensures NoHolds(PressCommands(names))
  {
    if names != [] {
      PressesHoldNothing(names[..|names| - 1]);
    }
  }

  lemma {:induction false} DiffsQueueNothing(held: Buttons, next: Buttons, n: nat)
    requires n <= 5
    ensures EdgesOf(Diffs(held, next, n)) == [] && ImmediatesOf(Diffs(held, next, n)) == []
  {
    if n > 0 {
      DiffsQueueNothing(held, next, n - 1);
      var before := Diffs(held, next, n - 1);
      if Diffs(held, next, n) != before {
        assert Diffs(held, next, n)[..|before|] == before;
      }
    }
  }

  lemma LinesHoldNothing(line: ScriptLine)
    ensures NoHolds(LineCommands(line))
  {
    if line.press.Some? {
      PressesHoldNothing(line.press.value);
    }
  }

  lemma WireLineHolds(line: ScriptLine, held: Buttons)
    requires held.Clean()
    ensures HeldAfter(WireLine(line, held), held) == HeldBeyond(line, held)
    ensures HeldBeyond(line, held).Clean()
  {
    var next := HeldBeyond(line, held);
    if line.hold.Some? {
      NamedButtonsAreClean(line.hold.value);
    }
    DiffsReplace(held, next);
    LinesHoldNothing(line);
    HeldIsSequential(Diffs(held, next, 5), LineCommands(line), held);
    NoHoldsKeepHeld(LineCommands(line), next);
  }

  lemma WireLineQueues(line: ScriptLine, held: Buttons)
    ensures EdgesOf(WireLine(line, held)) == EdgesOf(LineCommands(line))
    ensures ImmediatesOf(WireLine(line, held)) == ImmediatesOf(LineCommands(line))
  {
    var diffs := Diffs(held, HeldBeyond(line, held), 5);
    DiffsQueueNothing(held, HeldBeyond(line, held), 5);
    EdgesAreSequential(diffs, LineCommands(line));
    ImmediatesAreSequential(diffs, LineCommands(line));
  }

  /** The wire form of a tick's lines folds to the held set, edges and immediates the lines mean. */
  lemma {:induction false} WireLinesMeaning(lines: seq<ScriptLine>, held: Buttons)
    requires held.Clean()
    ensures HeldThrough(lines, held).Clean()
    ensures HeldAfter(WireLines(lines, held), held) == HeldThrough(lines, held)
    ensures EdgesOf(WireLines(lines, held)) == EdgesOf(LinesCommands(lines))
    ensures ImmediatesOf(WireLines(lines, held)) == ImmediatesOf(LinesCommands(lines))
  {
    if lines != [] {
      var front, last := lines[..|lines| - 1], lines[|lines| - 1];
      WireLinesMeaning(front, held);
      var mid := HeldThrough(front, held);
      WireLineHolds(last, mid);
      WireLineQueues(last, mid);
      HeldIsSequential(WireLines(front, held), WireLine(last, mid), held);
      EdgesAreSequential(WireLines(front, held), WireLine(last, mid));
      EdgesAreSequential(LinesCommands(front), LineCommands(last));
      ImmediatesAreSequential(WireLines(front, held), WireLine(last, mid));
      ImmediatesAreSequential(LinesCommands(front), LineCommands(last));
    }
  }

  lemma {:induction false} HeldThroughNames(lines: seq<ScriptLine>, names: seq<string>)
    ensures HeldThrough(lines, ButtonsNamed(names)) == ButtonsNamed(HoldAfter(lines, names))
  {
    if lines != [] {
      HeldThroughNames(lines[..|lines| - 1], names);
    }
  }

  /// What one seat sends for one tick

  /** Everything the two seats together send for tick `t`, in the script's own order. */
  function WireTick(lines: seq<ScriptLine>, t: int): seq<Command> {
    WireLines(LinesAt(lines, t), ButtonsNamed(HeldNames(lines, t - 1)))
  }

  function LinesBelow(lines: seq<ScriptLine>, t: int): seq<ScriptLine> {
    if lines == [] then []
    else
      var last := lines[|lines| - 1];
      LinesBelow(lines[..|lines| - 1], t) + (if last.at < t then [last] else [])
  }

  lemma {:induction false} BelowThenAt(lines: seq<ScriptLine>, t: int)
    requires Sorted(lines)
    ensures LinesBelow(lines, t + 1) == LinesBelow(lines, t) + LinesAt(lines, t)
  {
    if lines != [] {
      var front, last := lines[..|lines| - 1], lines[|lines| - 1];
      BelowThenAt(front, t);
      if last.at < t {
        NoneAt(lines, t);
        NoneAt(front, t);
      }
      JoinedTail(LinesBelow(front, t), LinesAt(front, t), last);
    }
  }

  lemma JoinedTail(a: seq<ScriptLine>, b: seq<ScriptLine>, last: ScriptLine)
    ensures (a + []) + (b + [last]) == (a + b) + [last]
    ensures b == [] ==> (a + [last]) + b == (a + b) + [last]
    ensures (a + []) + (b + []) == (a + b) + []
  {
  }

  lemma {:induction false} AllBelow(lines: seq<ScriptLine>, t: int)
    requires forall i :: 0 <= i < |lines| ==> lines[i].at < t
    ensures LinesBelow(lines, t) == lines
  {
    if lines != [] {
      var front := lines[..|lines| - 1];
      AllBelow(front, t);
      assert front + [lines[|lines| - 1]] == lines;
    }
  }

  lemma {:induction false} HeldThroughConcat(a: seq<ScriptLine>, b: seq<ScriptLine>, held: Buttons)
    ensures HeldThrough(a + b, held) == HeldThrough(b, HeldThrough(a, held))
  {
    if b == [] {
      assert a + b == a;
    } else {
      assert (a + b)[..|a + b| - 1] == a + b[..|b| - 1];
      HeldThroughConcat(a, b[..|b| - 1], held);
    }
  }

  lemma {:induction false} HeldBelow(lines: seq<ScriptLine>, t: nat)
    requires Sorted(lines)
    ensures HeldThrough(LinesBelow(lines, t), NO_BUTTONS) == ButtonsNamed(HeldNames(lines, t - 1))
  {
    if t == 0 {
      NothingBelowZero(lines);
    } else {
      hide HeldThrough, LinesBelow, LinesAt, ButtonsNamed, HoldAfter;
      HeldBelow(lines, t - 1);
      BelowThenAt(lines, t - 1);
      HeldThroughConcat(LinesBelow(lines, t - 1), LinesAt(lines, t - 1), NO_BUTTONS);
      HeldThroughNames(LinesAt(lines, t - 1), HeldNames(lines, t - 2));
    }
  }

  lemma {:induction false} NothingBelowZero(lines: seq<ScriptLine>)
    ensures LinesBelow(lines, 0) == []
  {
    if lines != [] {
      NothingBelowZero(lines[..|lines| - 1]);
    }
  }

  lemma {:induction false} ScheduleAt(lines: seq<ScriptLine>, role: Role, t: nat)
    requires Sorted(lines)
    ensures CommandsAt(ScheduleOf(lines, role), t) ==
            SentBy(WireLines(LinesAt(lines, t), HeldThrough(LinesBelow(lines, t), NO_BUTTONS)), role)
  {
    if lines != [] {
      var front, last := lines[..|lines| - 1], lines[|lines| - 1];
      var sent := WireLine(last, HeldThrough(front, NO_BUTTONS));
      ScheduleAt(front, role, t);
      CommandsAtConcat(ScheduleOf(front, role), Sends(last.at, sent, role), t);
      CommandsAtTagged(last.at, SentBy(sent, role), t);
      if last.at == t {
        ScheduleAtLast(lines, role, t);
      } else {
        ScheduleAtOther(lines, role, t);
      }
    }
  }

  lemma ScheduleAtOther(lines: seq<ScriptLine>, role: Role, t: nat)
    requires Sorted(lines) && lines != [] && lines[|lines| - 1].at != t
    ensures LinesAt(lines, t) == LinesAt(lines[..|lines| - 1], t)
    ensures LinesAt(lines, t) != [] ==> LinesBelow(lines, t) == LinesBelow(lines[..|lines| - 1], t)
  {
    if lines[|lines| - 1].at < t {
      NoneAt(lines, t);
    }
  }

  lemma ScheduleAtLast(lines: seq<ScriptLine>, role: Role, t: nat)
    requires Sorted(lines) && lines != [] && lines[|lines| - 1].at == t
    ensures var front, last := lines[..|lines| - 1], lines[|lines| - 1];
            var before := HeldThrough(LinesBelow(lines, t), NO_BUTTONS);
            && LinesBelow(front, t) == LinesBelow(lines, t)
            && SentBy(WireLines(LinesAt(lines, t), before), role) ==
               SentBy(WireLines(LinesAt(front, t), before), role) +
               SentBy(WireLine(last, HeldThrough(front, NO_BUTTONS)), role)
  {
    var front, last := lines[..|lines| - 1], lines[|lines| - 1];
    var before := HeldThrough(LinesBelow(front, t), NO_BUTTONS);
    hide SentBy, WireLine, HeldThrough;
    HeldByTheFront(front, t);
    WireOneMore(LinesAt(front, t), last, before);
    SentByConcat(WireLines(LinesAt(front, t), before), WireLine(last, HeldThrough(front, NO_BUTTONS)), role);
  }

  lemma HeldByTheFront(lines: seq<ScriptLine>, t: nat)
    requires Sorted(lines) && forall i :: 0 <= i < |lines| ==> lines[i].at <= t
    ensures HeldThrough(lines, NO_BUTTONS) ==
            HeldThrough(LinesAt(lines, t), HeldThrough(LinesBelow(lines, t), NO_BUTTONS))
  {
    hide HeldThrough, LinesAt, LinesBelow;
    BelowThenAt(lines, t);
    AllBelow(lines, t + 1);
    HeldThroughConcat(LinesBelow(lines, t), LinesAt(lines, t), NO_BUTTONS);
  }

  lemma WireOneMore(lines: seq<ScriptLine>, last: ScriptLine, before: Buttons)
    ensures WireLines(lines + [last], before) == WireLines(lines, before) + WireLine(last, HeldThrough(lines, before))
  {
    hide WireLine, HeldThrough;
    assert (lines + [last])[..|lines|] == lines;
  }

  lemma LinesUntilKeepsTicks(lines: seq<ScriptLine>, bound: nat, t: nat)
    requires Sorted(lines) && t < bound
    ensures LinesAt(LinesUntil(lines, bound), t) == LinesAt(lines, t)
  {
    var kept := LinesUntil(lines, bound);
    assert lines == kept + lines[|kept|..];
    LinesAtConcat(kept, lines[|kept|..], t);
    NoneAt(lines[|kept|..], t);
  }

  lemma {:induction false} SameTicksSameHolds(a: seq<ScriptLine>, b: seq<ScriptLine>, t: int)
    requires forall u: int :: u <= t ==> LinesAt(a, u) == LinesAt(b, u)
    ensures HeldNames(a, t) == HeldNames(b, t)
    decreases t + 1
  {
    if t >= 0 {
      SameTicksSameHolds(a, b, t - 1);
    }
  }

  /** A seat's schedule holds, for each tick of the run, exactly its own part of that tick's stream. */
  lemma ScheduleIsTheSeatsPart(script: ScriptFile, role: Role, t: nat)
    requires t < script.maxTicks
    ensures CommandsAt(Schedule(script, role), t) == SentBy(WireTick(script.commands, t), role)
  {
    var sorted := SortByTick(script.commands);
    var kept := LinesUntil(sorted, script.maxTicks);
    SortIsStable(script.commands, t);
    assert Sorted(kept);
    forall u: int | u <= t
      ensures LinesAt(kept, u) == LinesAt(script.commands, u)
    {
      SortIsStable(script.commands, u);
      if u >= 0 {
        LinesUntilKeepsTicks(sorted, script.maxTicks, u);
      } else {
        NoneAt(kept, u);
        NoneAt(script.commands, u);
      }
    }
    SameTicksSameHolds(kept, script.commands, t - 1);
    ScheduleAt(kept, role, t);
    HeldBelow(kept, t);
  }

  /// Nothing is lost between the seats

  lemma {:induction false} SentByKeeps(cmds: seq<Command>, c: Command, role: Role)
    ensures multiset(SentBy(cmds, role))[c] == if (HackersOwn(c) <==> role == Hacker) then multiset(cmds)[c] else 0
  {
    hide HackersOwn;
    if cmds != [] {
      var front, last := cmds[..|cmds| - 1], cmds[|cmds| - 1];
      SentByKeeps(front, c, role);
      assert cmds == front + [last];
      SentBySnoc(front, last, role);
      OneMoreOf(front, last, c);
      OneMoreOf(SentBy(front, role), last, c);
      OwnersSend(last, role);
    }
  }

  lemma OneMoreOf(cmds: seq<Command>, last: Command, c: Command)
    ensures multiset(cmds + [last])[c] == multiset(cmds)[c] + if last == c then 1 else 0
    ensures cmds + [] == cmds
  {
    assert multiset(cmds + [last]) == multiset(cmds) + multiset{last};
  }

  lemma OwnersSend(c: Command, role: Role)
    ensures ScriptedSender(c) == role <==> (HackersOwn(c) <==> role == Hacker)
  {
  }

  lemma {:induction false} DiffsOnlyHold(held: Buttons, next: Buttons, n: nat)
    requires n <= 5
    ensures forall c :: c in Diffs(held, next, n) ==> c.SetButton?
  {
    if n > 0 {
      DiffsOnlyHold(held, next, n - 1);
    }
  }

  lemma {:induction false} WireCarriesTheLines(lines: seq<ScriptLine>, held: Buttons, c: Command)
    requires !c.SetButton?
    ensures multiset(WireLines(lines, held))[c] == multiset(LinesCommands(lines))[c]
  {
    hide LineCommands, Diffs, HeldBeyond;
    if lines != [] {
      var front, last := lines[..|lines| - 1], lines[|lines| - 1];
      var before := HeldThrough(front, held);
      WireCarriesTheLines(front, held, c);
      DiffsOnlyHold(before, HeldBeyond(last, before), 5);
      OnlyFired(Diffs(before, HeldBeyond(last, before), 5), LineCommands(last), c);
      assert multiset(WireLines(lines, held)) == multiset(WireLines(front, held)) + multiset(WireLine(last, before));
      assert multiset(LinesCommands(lines)) == multiset(LinesCommands(front)) + multiset(LineCommands(last));
    }
  }

  lemma OnlyFired(diffs: seq<Command>, fired: seq<Command>, c: Command)
    requires c !in diffs
    ensures multiset(diffs + fired)[c] == multiset(fired)[c]
  {
    assert multiset(diffs + fired) == multiset(diffs) + multiset(fired);
  }

  /** Every press and hook authored at a tick of the run is sent by exactly one seat, as often as it was
      authored: by the hacker if it is the hacker's own, else by the infiltrator. */
  lemma EachCommandHasOneSeat(script: ScriptFile, role: Role, t: nat, c: Command)
    requires t < script.maxTicks && !c.SetButton?
    ensures multiset(CommandsAt(Schedule(script, role), t))[c] ==
            if (HackersOwn(c) <==> role == Hacker) then multiset(LinesCommands(LinesAt(script.commands, t)))[c] else 0
  {
    ScheduleIsTheSeatsPart(script, role, t);
    SentByKeeps(WireTick(script.commands, t), c, role);
    WireCarriesTheLines(LinesAt(script.commands, t), ButtonsNamed(HeldNames(script.commands, t - 1)), c);
  }

  /** Holding is the infiltrator's: the hacker's schedule never writes a button. */
  lemma HackerNeverHolds(script: ScriptFile, s: ScheduledCommand)
    requires s in Schedule(script, Hacker)
    ensures !s.cmd.SetButton? && !s.cmd.Jump? && !s.cmd.InteractPress? && !s.cmd.ThrowUsb?
  {
    SchedulesAreOwn(script, Hacker);
  }
}
