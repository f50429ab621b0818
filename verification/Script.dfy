/** The sparse script format, its token vocabulary, and `expand`, which makes it dense. */
module Script {
  import opened Wrappers
  import opened Commands

  datatype TestHook = HookCrisis | HookExtract(how: string) | HookFail(why: string)

  datatype ScriptLine = ScriptLine(
    at: nat,
    hold: Option<seq<string>>,
    press: Option<seq<string>>,
    test: Option<TestHook>)

  datatype ScriptFile = ScriptFile(
    seed: nat,
    difficulty: string,
    reducedMotion: bool,
    supervised: bool,
    maxTicks: nat,
    commands: seq<ScriptLine>)

  /// Tokens

  /** The characters `str::trim` removes: Unicode White_Space. */
  predicate IsSpace(c: char) {
    || '\U{9}' <= c <= '\U{D}' || c == ' ' || c == '\U{85}' || c == '\U{A0}' || c == '\U{1680}'
    || '\U{2000}' <= c <= '\U{200A}' || c == '\U{2028}' || c == '\U{2029}' || c == '\U{202F}'
    || c == '\U{205F}' || c == '\U{3000}'
  }

  function Trim(s: string): string {
    if s == [] then s
    else if IsSpace(s[0]) then Trim(s[1..])
    else if IsSpace(s[|s| - 1]) then Trim(s[..|s| - 1])
    else s
  }

  function LowerChar(c: char): char {
    if 'A' <= c <= 'Z' then (c as int + 32) as char else c
  }

  function Lower(s: string): string {
    seq(|s|, i requires 0 <= i < |s| => LowerChar(s[i]))
  }

  function Token(name: string): string {
    Lower(Trim(name))
  }

  /** A name already in canonical form is its own token. */
  lemma CanonicalNamesAreTokens(name: string)
    requires forall i :: 0 <= i < |name| ==> !IsSpace(name[i]) && !('A' <= name[i] <= 'Z')
    ensures Token(name) == name
  {
  }

  /** `r` is the text from `i` to `j`, and only white space lies outside of it. */
  predicate SpaceAround(s: string, r: string, i: int, j: int) {
    && 0 <= i <= j <= |s| && r == s[i..j]
    && (forall k :: 0 <= k < i ==> IsSpace(s[k]))
    && (forall k :: j <= k < |s| ==> IsSpace(s[k]))
  }

  lemma OneLess(s: string, r: string, i: int, j: int)
    requires s != []
    ensures IsSpace(s[0]) && SpaceAround(s[1..], r, i, j) ==> SpaceAround(s, r, i + 1, j + 1)
    ensures IsSpace(s[|s| - 1]) && SpaceAround(s[..|s| - 1], r, i, j) ==> SpaceAround(s, r, i, j)
  {
    hide IsSpace;
  }

  /** Trimming takes white space off both ends and nothing else. */
  lemma {:induction false} TrimTakesTheEnds(s: string)
    ensures exists i, j :: SpaceAround(s, Trim(s), i, j)
    ensures Trim(s) != [] ==> !IsSpace(Trim(s)[0]) && !IsSpace(Trim(s)[|Trim(s)| - 1])
    decreases |s|
  {
    hide IsSpace, SpaceAround;
    if s != [] && IsSpace(s[0]) {
      TrimTakesTheEnds(s[1..]);
      var i, j :| SpaceAround(s[1..], Trim(s[1..]), i, j);
      OneLess(s, Trim(s), i, j);
    } else if s != [] && IsSpace(s[|s| - 1]) {
      TrimTakesTheEnds(s[..|s| - 1]);
      var i, j :| SpaceAround(s[..|s| - 1], Trim(s[..|s| - 1]), i, j);
      OneLess(s, Trim(s), i, j);
    } else {
      AllOf(s);
      assert SpaceAround(s, Trim(s), 0, |s|);
    }
  }

  lemma AllOf(s: string)
    ensures SpaceAround(s, s, 0, |s|)
  {
  }

  /** Of what is left only the ASCII capitals change, each to its own small letter. */
  lemma TokensAreSmall(name: string)
    ensures |Token(name)| == |Trim(name)|
    ensures forall i :: 0 <= i < |Trim(name)| ==>
              var c, d := Trim(name)[i], Token(name)[i];
              if 'A' <= c <= 'Z' then 'a' <= d <= 'z' && d as int - 'a' as int == c as int - 'A' as int else d == c
  {
  }

  function ButtonFrom(name: string): Option<Button> {
    var n := Token(name);
    if n == "left" || n == "a" then Some(Left)
    else if n == "right" || n == "d" then Some(Right)
    else if n == "crouch" || n == "s" then Some(Crouch)
    else if n == "sprint" || n == "shift" then Some(Sprint)
    else if n == "interact" || n == "e" then Some(Interact)
    else None
  }

  /** A press is an edge or an immediate, never a held-button write. */
  function PressCommand(name: string): (r: Option<Command>)
    ensures r.Some? ==> !r.value.SetButton?
  {
    var n := Token(name);
    if n == "jump" || n == "w" || n == "space" then Some(Jump)
    else if n == "interact" || n == "e" then Some(InteractPress)
    else if n == "throw" || n == "q" then Some(ThrowUsb)
    else if n == "camera" || n == "1" then Some(Uplink(Camera))
    else if n == "door" || n == "2" then Some(Uplink(Door))
    else if n == "vacuum" || n == "3" then Some(Uplink(Vacuum))
    else if n == "lights" || n == "4" then Some(Uplink(Lights))
    else if n == "pivot" || n == "bridge" || n == "p" then Some(Pivot(Bridge))
    else if n == "isp" || n == "ops" then Some(Pivot(IspOps))
    else if n == "grid" || n == "g" then Some(Pivot(GridJump))
    else if n == "unpivot" || n == "x" then Some(Unpivot)
    else if n == "pause" then Some(Pause(true))
    else if n == "resume" then Some(Pause(false))
    else None
  }

  function Underscored(s: string): string {
    seq(|s|, i requires 0 <= i < |s| => if s[i] == ' ' || s[i] == '-' then '_' else s[i])
  }

  function HookCommand(hook: TestHook): Command {
    match hook
    case HookCrisis => ForceCrisis
    case HookExtract(how) =>
      var n := Underscored(Token(how));
      ForceExtract(if n == "laundry_chute" || n == "chute" then LaundryChute else ServiceExit)
    case HookFail(why) =>
      var n := Token(why);
      ForceFail(if n == "partition" then Partition
                else if n == "lockdown" then Lockdown
                else if n == "traced" then Traced
                else Caught)
  }

  /// The vocabulary, by what the words mean

  function ButtonNames(b: Button): seq<string> {
    match b
    case Left => ["left", "a"]
    case Right => ["right", "d"]
    case Crouch => ["crouch", "s"]
    case Sprint => ["sprint", "shift"]
    case Interact => ["interact", "e"]
  }

  function PressNames(c: Command): seq<string> {
    match c
    case Jump => ["jump", "w", "space"]
    case InteractPress => ["interact", "e"]
    case ThrowUsb => ["throw", "q"]
    case Uplink(Camera) => ["camera", "1"]
    case Uplink(Door) => ["door", "2"]
    case Uplink(Vacuum) => ["vacuum", "3"]
    case Uplink(Lights) => ["lights", "4"]
    case Pivot(Bridge) => ["pivot", "bridge", "p"]
    case Pivot(IspOps) => ["isp", "ops"]
    case Pivot(GridJump) => ["grid", "g"]
    case Unpivot => ["unpivot", "x"]
    case Pause(on) => if on then ["pause"] else ["resume"]
    case _ => []
  }

  /** A word holds a button exactly if it is one of the button's names. */
  lemma HoldWords(name: string, b: Button)
    ensures ButtonFrom(name) == Some(b) <==> Token(name) in ButtonNames(b)
  {
    hide Token;
  }

  /** A word presses a command exactly if it is one of the command's names. */
  lemma PressWords(name: string, c: Command)
    ensures PressCommand(name) == Some(c) <==> Token(name) in PressNames(c)
  {
    hide Token, PressCommand, PressNames;
    if PressCommand(name) == Some(c) {
      PressIsNamed(name);
    }
    if Token(name) in PressNames(c) {
      NameIsPressed(name, c);
    }
  }

  lemma PressIsNamed(name: string)
    ensures PressCommand(name).Some? ==> Token(name) in PressNames(PressCommand(name).value)
  {
    hide Token;
  }

  lemma NameIsPressed(name: string, c: Command)
    requires Token(name) in PressNames(c)
    ensures PressCommand(name) == Some(c)
  {
    hide Token, PressCommand, PressNames;
    if |Token(name)| == 1 {
      KeyIsPressed(name, c);
    } else {
      WordIsPressed(name, c);
    }
  }

  lemma KeyIsPressed(name: string, c: Command)
    requires Token(name) in PressNames(c) && |Token(name)| == 1
    ensures PressCommand(name) == Some(c)
  {
    hide Token;
  }

  lemma WordIsPressed(name: string, c: Command)
    requires Token(name) in PressNames(c) && |Token(name)| != 1
    ensures PressCommand(name) == Some(c)
  {
    hide Token;
  }

  /** A hook forces what it names; a way out or a reason nobody knows is the service exit or being caught. */
  lemma HookWords(hook: TestHook)
    ensures hook.HookCrisis? ==> HookCommand(hook) == ForceCrisis
    ensures hook.HookExtract? ==>
              var chute := Underscored(Token(hook.how)) in ["laundry_chute", "chute"];
              HookCommand(hook) == ForceExtract(if chute then LaundryChute else ServiceExit)
    ensures hook.HookFail? ==> HookCommand(hook).ForceFail?
                               && var r := HookCommand(hook).reason;
                                  && (r == Partition <==> Token(hook.why) == "partition")
                                  && (r == Lockdown <==> Token(hook.why) == "lockdown")
                                  && (r == Traced <==> Token(hook.why) == "traced")
  {
    hide Token, Underscored;
  }

  /// Lines by tick

  predicate Sorted(lines: seq<ScriptLine>) {
    forall i, j :: 0 <= i < j < |lines| ==> lines[i].at <= lines[j].at
  }

  function Insert(sorted: seq<ScriptLine>, line: ScriptLine): seq<ScriptLine> {
    if sorted == [] || sorted[|sorted| - 1].at <= line.at then sorted + [line]
    else Insert(sorted[..|sorted| - 1], line) + [sorted[|sorted| - 1]]
  }

  /** The stable sort by `at` that both `expand` and the seat split start with. */
  function SortByTick(lines: seq<ScriptLine>): seq<ScriptLine> {
    if lines == [] then [] else Insert(SortByTick(lines[..|lines| - 1]), lines[|lines| - 1])
  }

  function LinesAt(lines: seq<ScriptLine>, t: int): seq<ScriptLine> {
    if lines == [] then []
    else
      var last := lines[|lines| - 1];
      LinesAt(lines[..|lines| - 1], t) + (if last.at == t then [last] else [])
  }

  lemma {:induction false} LinesAtConcat(a: seq<ScriptLine>, b: seq<ScriptLine>, t: int)
    ensures LinesAt(a + b, t) == LinesAt(a, t) + LinesAt(b, t)
  {
    if b == [] {
      assert a + b == a;
    } else {
      var front, last := b[..|b| - 1], b[|b| - 1];
      assert (a + b)[..|a + b| - 1] == a + front && (a + b)[|a + b| - 1] == last;
      LinesAtConcat(a, front, t);
    }
  }

  lemma {:induction false} InsertKeepsOrder(sorted: seq<ScriptLine>, line: ScriptLine)
    requires Sorted(sorted)
    ensures Sorted(Insert(sorted, line))
    ensures forall x :: x in Insert(sorted, line) ==> x in sorted || x == line
  {
    if sorted != [] && sorted[|sorted| - 1].at > line.at {
      var front, last := sorted[..|sorted| - 1], sorted[|sorted| - 1];
      InsertKeepsOrder(front, line);
      forall i | 0 <= i < |Insert(front, line)|
        ensures Insert(front, line)[i].at <= last.at
      {
        assert Insert(front, line)[i] in Insert(front, line);
      }
    }
  }

  lemma {:induction false} InsertIsStable(sorted: seq<ScriptLine>, line: ScriptLine, t: int)
    requires Sorted(sorted)
    ensures LinesAt(Insert(sorted, line), t) == LinesAt(sorted, t) + LinesAt([line], t)
  {
    hide LinesAt;
    if sorted == [] || sorted[|sorted| - 1].at <= line.at {
      LinesAtConcat(sorted, [line], t);
    } else {
      var front, last := sorted[..|sorted| - 1], sorted[|sorted| - 1];
      InsertIsStable(front, line, t);
      LinesAtConcat(Insert(front, line), [last], t);
      assert sorted == front + [last];
      LinesAtConcat(front, [last], t);
      if last.at == t {
        NoneAt([line], t);
      } else {
        NoneAt([last], t);
      }
    }
  }

  /** Sorting keeps, for each tick, that tick's lines in their authored order. */
  lemma {:induction false} SortIsStable(lines: seq<ScriptLine>, t: int)
    ensures Sorted(SortByTick(lines))
    ensures LinesAt(SortByTick(lines), t) == LinesAt(lines, t)
  {
    hide LinesAt, Insert;
    if lines == [] {
      assert SortByTick(lines) == lines;
    } else {
      var front, last := lines[..|lines| - 1], lines[|lines| - 1];
      SortIsStable(front, t);
      InsertKeepsOrder(SortByTick(front), last);
      InsertIsStable(SortByTick(front), last, t);
      assert lines == front + [last];
      LinesAtConcat(front, [last], t);
    }
  }

  /** In sorted lines a tick's lines are one contiguous segment. */
  lemma SegmentIsLinesAt(lines: seq<ScriptLine>, i: nat, j: nat, t: int)
    requires i <= j <= |lines|
    requires forall k :: 0 <= k < i ==> lines[k].at < t
    requires forall k :: i <= k < j ==> lines[k].at == t
    requires forall k :: j <= k < |lines| ==> lines[k].at > t
    ensures LinesAt(lines, t) == lines[i..j]
  {
    assert lines == lines[..i] + lines[i..j] + lines[j..];
    LinesAtConcat(lines[..i] + lines[i..j], lines[j..], t);
    LinesAtConcat(lines[..i], lines[i..j], t);
    NoneAt(lines[..i], t);
    AllAt(lines[i..j], t);
    NoneAt(lines[j..], t);
  }

  lemma {:induction false} NoneAt(lines: seq<ScriptLine>, t: int)
    requires forall x :: x in lines ==> x.at != t
    ensures LinesAt(lines, t) == []
  {
    if lines != [] {
      NoneAt(lines[..|lines| - 1], t);
    }
  }

  lemma {:induction false} AllAt(lines: seq<ScriptLine>, t: int)
    requires forall x :: x in lines ==> x.at == t
    ensures LinesAt(lines, t) == lines
  {
    if lines != [] {
      AllAt(lines[..|lines| - 1], t);
      assert lines[..|lines| - 1] + [lines[|lines| - 1]] == lines;
    }
  }

  /// The dense meaning of a script

  function ButtonsNamed(names: seq<string>): Buttons {
    if names == [] then NO_BUTTONS
    else
      var rest := ButtonsNamed(names[..|names| - 1]);
      match ButtonFrom(names[|names| - 1])
      case Some(b) => rest.Set(b, true)
      case None => rest
  }

  lemma {:induction false} NamedButtonsAreClean(names: seq<string>)
    ensures ButtonsNamed(names).Clean()
  {
    if names != [] {
      NamedButtonsAreClean(names[..|names| - 1]);
    }
  }

  function PressCommands(names: seq<string>): seq<Command> {
    if names == [] then []
    else
      PressCommands(names[..|names| - 1]) +
      match PressCommand(names[|names| - 1]) { case Some(c) => [c] case None => [] }
  }

  /** A line's presses, then its test hook. */
  function LineCommands(line: ScriptLine): seq<Command> {
    (if line.press.Some? then PressCommands(line.press.value) else []) +
    (if line.test.Some? then [HookCommand(line.test.value)] else [])
  }

  function LinesCommands(lines: seq<ScriptLine>): seq<Command> {
    if lines == [] then [] else LinesCommands(lines[..|lines| - 1]) + LineCommands(lines[|lines| - 1])
  }

  /** The last `hold` of the lines, or what was held before them. */
  function HoldAfter(lines: seq<ScriptLine>, before: seq<string>): seq<string> {
    if lines == [] then before
    else if lines[|lines| - 1].hold.Some? then lines[|lines| - 1].hold.value
    else HoldAfter(lines[..|lines| - 1], before)
  }

  /** The names held during tick `t`: the last `hold` authored at a tick up to `t`. */
  function HeldNames(lines: seq<ScriptLine>, t: int): seq<string>
    decreases t + 1
  {
    if t < 0 then [] else HoldAfter(LinesAt(lines, t), HeldNames(lines, t - 1))
  }

  function DenseTick(lines: seq<ScriptLine>, t: int): TickInput {
    var fired := LinesCommands(LinesAt(lines, t));
    TickInput(ButtonsNamed(HeldNames(lines, t)), EdgesOf(fired), ImmediatesOf(fired))
  }

  function DenseTicks(lines: seq<ScriptLine>, n: nat): (r: seq<TickInput>)
    ensures |r| == n
  {
    if n == 0 then [] else DenseTicks(lines, n - 1) + [DenseTick(lines, n - 1)]
  }

  lemma {:induction false} DenseTicksAt(lines: seq<ScriptLine>, n: nat, t: nat)
    requires t < n
    ensures DenseTicks(lines, n)[t] == DenseTick(lines, t)
  {
    hide DenseTick;
    if t < n - 1 {
      DenseTicksAt(lines, n - 1, t);
    }
  }

  /// What is held when

  /** Line `i` holds the latest hold authored up to tick `t`: the last of its tick, at the last such tick. */
  predicate LastHold(lines: seq<ScriptLine>, t: int, i: int) {
    && 0 <= i < |lines| && lines[i].hold.Some? && lines[i].at <= t
    && forall j :: 0 <= j < |lines| && lines[j].hold.Some? && lines[j].at <= t ==>
         lines[j].at < lines[i].at || (lines[j].at == lines[i].at && j <= i)
  }

  lemma HoldAfterMore(lines: seq<ScriptLine>, last: ScriptLine, before: seq<string>)
    ensures HoldAfter(lines + [last], before) == if last.hold.Some? then last.hold.value else HoldAfter(lines, before)
    ensures lines + [] == lines
  {
    assert (lines + [last])[..|lines|] == lines;
  }

  lemma {:induction false} HoldOfTheTick(lines: seq<ScriptLine>, t: int, i: nat, before: seq<string>)
    requires i < |lines| && lines[i].hold.Some? && lines[i].at == t
    requires forall j :: i < j < |lines| && lines[j].at == t ==> lines[j].hold.None?
    ensures HoldAfter(LinesAt(lines, t), before) == lines[i].hold.value
  {
    var front, last := lines[..|lines| - 1], lines[|lines| - 1];
    HoldAfterMore(LinesAt(front, t), last, before);
    if i < |front| {
      HoldOfTheTick(front, t, i, before);
    }
  }

  lemma {:induction false} NoHoldOfTheTick(lines: seq<ScriptLine>, t: int, before: seq<string>)
    requires forall j :: 0 <= j < |lines| && lines[j].at == t ==> lines[j].hold.None?
    ensures HoldAfter(LinesAt(lines, t), before) == before
  {
    if lines != [] {
      var front, last := lines[..|lines| - 1], lines[|lines| - 1];
      HoldAfterMore(LinesAt(front, t), last, before);
      NoHoldOfTheTick(front, t, before);
    }
  }

  lemma {:induction false} LatestHoldHolds(lines: seq<ScriptLine>, t: int, i: int)
    requires LastHold(lines, t, i)
    ensures HeldNames(lines, t) == lines[i].hold.value
    decreases t
  {
    if lines[i].at == t {
      HoldOfTheTick(lines, t, i, HeldNames(lines, t - 1));
    } else {
      NoHoldOfTheTick(lines, t, HeldNames(lines, t - 1));
      LatestHoldHolds(lines, t - 1, i);
    }
  }

  lemma {:induction false} NothingHeldYet(lines: seq<ScriptLine>, t: int)
    requires forall j :: 0 <= j < |lines| && lines[j].hold.Some? ==> lines[j].at > t
    ensures HeldNames(lines, t) == []
    decreases t + 1
  {
    if t >= 0 {
      NoHoldOfTheTick(lines, t, HeldNames(lines, t - 1));
      NothingHeldYet(lines, t - 1);
    }
  }

  lemma {:induction false} NamedAreHeld(names: seq<string>, b: Button)
    ensures ButtonsNamed(names).Has(b) <==> exists i :: 0 <= i < |names| && Token(names[i]) in ButtonNames(b)
  {
    hide Token, ButtonNames, ButtonFrom;
    if names == [] {
      NothingIsHeldByDefault();
    } else {
      var front, last := names[..|names| - 1], names[|names| - 1];
      NamedAreHeld(front, b);
      HoldWords(last, b);
      if exists i :: 0 <= i < |front| && Token(front[i]) in ButtonNames(b) {
        var i :| 0 <= i < |front| && Token(front[i]) in ButtonNames(b);
        assert Token(names[i]) in ButtonNames(b);
      }
    }
  }

  function Dense(script: ScriptFile): seq<TickInput> {
    DenseTicks(script.commands, script.maxTicks)
  }

  /// `expand`

  lemma FiringOne(before: seq<Command>, c: Command)
    requires !c.SetButton?
    ensures EdgesOf(before + [c]) == EdgesOf(before) + EdgeOf(c)
    ensures ImmediatesOf(before + [c]) == ImmediatesOf(before) + (if EdgeOf(c) == [] then [c] else [])
  {
    assert (before + [c])[..|before|] == before;
  }

  datatype Queues = Queues(edges: seq<Edge>, immediates: seq<Command>)

  /** The queues after a stream of edge and immediate commands has been classified onto them. */
  function Queued(q: Queues, cmds: seq<Command>): Queues {
    Queues(q.edges + EdgesOf(cmds), q.immediates + ImmediatesOf(cmds))
  }

  lemma QueuedSnoc(q: Queues, cmds: seq<Command>, c: Command)
    requires !c.SetButton?
    ensures Queued(q, cmds + [c]) ==
            Queues(Queued(q, cmds).edges + EdgeOf(c),
                   Queued(q, cmds).immediates + (if EdgeOf(c) == [] then [c] else []))
  {
    hide EdgesOf, ImmediatesOf, EdgeOf;
    FiringOne(cmds, c);
  }

  lemma QueuedConcat(q: Queues, a: seq<Command>, b: seq<Command>)
    ensures Queued(q, a + b) == Queued(Queued(q, a), b)
  {
    hide EdgesOf, ImmediatesOf;
    EdgesAreSequential(a, b);
    ImmediatesAreSequential(a, b);
  }

  /** `classify`: an edge goes on the edge queue, anything else on the immediate queue. */
  method Classify(q: Queues, c: Command) returns (q': Queues)
    ensures q' == Queues(q.edges + EdgeOf(c), q.immediates + (if EdgeOf(c) == [] then [c] else []))
    ensures !c.SetButton? ==> forall q0, cmds :: q == Queued(q0, cmds) ==> q' == Queued(q0, cmds + [c])
  {
    match c {
      case Jump => q' := q.(edges := q.edges + [JumpUp]);
      case InteractPress => q' := q.(edges := q.edges + [InteractEdge]);
      case ThrowUsb => q' := q.(edges := q.edges + [Throw]);
      case _ => q' := q.(immediates := q.immediates + [c]);
    }
    if !c.SetButton? {
      forall q0, cmds | q == Queued(q0, cmds)
        ensures q' == Queued(q0, cmds + [c])
      {
        QueuedSnoc(q0, cmds, c);
      }
    }
  }

  method ExpandPresses(q: Queues, names: seq<string>) returns (q': Queues)
    ensures q' == Queued(q, PressCommands(names))
  {
    q' := q;
    for i := 0 to |names|
      invariant q' == Queued(q, PressCommands(names[..i]))
    {
      assert names[..i + 1][..i] == names[..i];
      var fired := PressCommand(names[i]);
      if fired.Some? {
        q' := Classify(q', fired.value);
      } else {
        assert PressCommands(names[..i]) + [] == PressCommands(names[..i]);
      }
    }
    assert names[..|names|] == names;
  }

  /** What the cursor loop carries: the persistent held names and the tick's two queues. */
  datatype TickState = TickState(heldNames: seq<string>, queues: Queues)

  function Processed(s: TickState, lines: seq<ScriptLine>): TickState {
    TickState(HoldAfter(lines, s.heldNames), Queued(s.queues, LinesCommands(lines)))
  }

  lemma ProcessedSnoc(s: TickState, lines: seq<ScriptLine>, i: nat, j: nat)
    requires i <= j < |lines|
    ensures Processed(s, lines[i..j + 1]) ==
            TickState(if lines[j].hold.Some? then lines[j].hold.value else Processed(s, lines[i..j]).heldNames,
                      Queued(Processed(s, lines[i..j]).queues, LineCommands(lines[j])))
  {
    assert lines[i..j + 1][..j - i] == lines[i..j];
    QueuedConcat(s.queues, LinesCommands(lines[i..j]), LineCommands(lines[j]));
  }

  lemma NothingProcessed(s: TickState)
    ensures Processed(s, []) == s
  {
  }

  /** One line: its hold replaces the held names, its presses and hook are classified. */
  method ExpandLine(line: ScriptLine, s: TickState) returns (s': TickState)
    ensures s'.heldNames == if line.hold.Some? then line.hold.value else s.heldNames
    ensures s'.queues == Queued(s.queues, LineCommands(line))
  {
    var heldNames, q := s.heldNames, s.queues;
    if line.hold.Some? {
      heldNames := line.hold.value;
    }
    ghost var presses := if line.press.Some? then PressCommands(line.press.value) else [];
    if line.press.Some? {
      q := ExpandPresses(q, line.press.value);
    }
    if line.test.Some? {
      q := Classify(q, HookCommand(line.test.value));
    } else {
      assert LineCommands(line) == presses;
    }
    s' := TickState(heldNames, q);
  }

  /** The lines of one tick, from the cursor up to the first line of another tick. */
  method ExpandTick(lines: seq<ScriptLine>, start: nat, tick: nat, s: TickState)
    returns (cursor: nat, s': TickState)
    requires start <= |lines|
    ensures IsSegment(lines, start, cursor, tick)
    ensures s' == Processed(s, lines[start..cursor])
  {
    hide Queued, LineCommands;
    NothingProcessed(s);
    cursor, s' := start, s;
    assert lines[start..cursor] == [];
    while cursor < |lines| && lines[cursor].at == tick
      invariant start <= cursor <= |lines|
      invariant forall k :: start <= k < cursor ==> lines[k].at == tick
      invariant s' == Processed(s, lines[start..cursor])
    {
      ProcessedSnoc(s, lines, start, cursor);
      s' := ExpandLine(lines[cursor], s');
      cursor := cursor + 1;
    }
  }

  predicate IsSegment(lines: seq<ScriptLine>, i: nat, j: nat, t: int) {
    && i <= j <= |lines|
    && (forall k :: i <= k < j ==> lines[k].at == t)
    && (j < |lines| ==> lines[j].at != t)
  }

  /** The cursor stands at the first line authored at `t` or later. */
  predicate CursorAt(lines: seq<ScriptLine>, cursor: nat, t: int) {
    && cursor <= |lines|
    && (forall k :: 0 <= k < cursor ==> lines[k].at < t)
    && (forall k :: cursor <= k < |lines| ==> lines[k].at >= t)
  }

  lemma CursorAdvances(lines: seq<ScriptLine>, i: nat, j: nat, t: int)
    requires Sorted(lines) && CursorAt(lines, i, t) && IsSegment(lines, i, j, t)
    ensures CursorAt(lines, j, t + 1) && LinesAt(lines, t) == lines[i..j]
  {
    assert forall k :: j <= k < |lines| ==> lines[j].at <= lines[k].at;
    SegmentIsLinesAt(lines, i, j, t);
  }

  method NamedButtons(names: seq<string>) returns (buttons: Buttons)
    ensures buttons == ButtonsNamed(names)
  {
    buttons := NO_BUTTONS;
    for i := 0 to |names|
      invariant buttons == ButtonsNamed(names[..i])
    {
      assert names[..i + 1][..i] == names[..i];
      var b := ButtonFrom(names[i]);
      if b.Some? {
        buttons := buttons.Set(b.value, true);
      }
    }
    assert names[..|names|] == names;
  }

  lemma DenseStep(lines: seq<ScriptLine>, t: nat, s: TickState)
    requires s == Processed(TickState(HeldNames(lines, t - 1), Queues([], [])), LinesAt(lines, t))
    ensures s.heldNames == HeldNames(lines, t)
    ensures TickInput(ButtonsNamed(s.heldNames), s.queues.edges, s.queues.immediates) == DenseTick(lines, t)
  {
  }

  /** `expand`: one cursor over the sorted lines, one dense input per tick. */
  method Expand(script: ScriptFile) returns (inputs: seq<TickInput>)
    ensures inputs == Dense(script)
  {
    var lines := SortByTick(script.commands);
    SortIsStable(script.commands, 0);
    inputs := [];
    var heldNames: seq<string>, cursor := [], 0;
    for tick := 0 to script.maxTicks
      invariant CursorAt(lines, cursor, tick)
      invariant heldNames == HeldNames(script.commands, tick - 1)
      invariant inputs == DenseTicks(script.commands, tick)
    {
      var cursor', s := ExpandTick(lines, cursor, tick, TickState(heldNames, Queues([], [])));
      CursorAdvances(lines, cursor, cursor', tick);
      SortIsStable(script.commands, tick);
      DenseStep(script.commands, tick, s);
      cursor, heldNames := cursor', s.heldNames;
      var buttons := NamedButtons(heldNames);
      inputs := inputs + [TickInput(buttons, s.queues.edges, s.queues.immediates)];
    }
  }

  /** In the dense form of a script a button is down at a tick exactly if the latest hold names it; a press
      or a hook never touches it. */
  lemma DenseHolds(script: ScriptFile, t: nat, b: Button)
    requires t < script.maxTicks
    ensures forall i :: LastHold(script.commands, t, i) ==>
              var names := script.commands[i].hold.value;
              (Dense(script)[t].buttons.Has(b)
               <==> exists k :: 0 <= k < |names| && Token(names[k]) in ButtonNames(b))
    ensures (forall j :: 0 <= j < |script.commands| && script.commands[j].hold.Some? ==> script.commands[j].at > t)
            ==> Dense(script)[t].buttons == NO_BUTTONS
  {
    hide Token, ButtonNames, ButtonsNamed, LastHold;
    DenseTicksAt(script.commands, script.maxTicks, t);
    NamedAreHeld(HeldNames(script.commands, t), b);
    forall i | LastHold(script.commands, t, i)
      ensures 0 <= i < |script.commands| && script.commands[i].hold.Some?
      ensures HeldNames(script.commands, t) == script.commands[i].hold.value
    {
      LastHoldIsALine(script.commands, t, i);
      LatestHoldHolds(script.commands, t, i);
    }
    if forall j :: 0 <= j < |script.commands| && script.commands[j].hold.Some? ==> script.commands[j].at > t {
      NothingHeldYet(script.commands, t);
      NoNames();
    }
  }

  lemma LastHoldIsALine(lines: seq<ScriptLine>, t: int, i: int)
    requires LastHold(lines, t, i)
    ensures 0 <= i < |lines| && lines[i].hold.Some?
  {
  }

  lemma NoNames()
    ensures ButtonsNamed([]) == NO_BUTTONS
  {
  }
}
