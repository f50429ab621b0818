/** The package boundary: what the loader accepts, and the run that snapshots, restores and replays. */
module Package {
  import opened Wrappers
  import opened Commands
  import opened Headless

  const PACKAGE_FORMAT := "idaptik-package/v1"
  const CONTRACT_ID := "dev.metadatastician.idaptik.package"
  const CONTRACT_VERSION := "1.0.0"
  const GAME_ID := "idaptik"
  const GAME_VERSION := "0.1.0"
  const PROFILE_ID := "idaptik"
  const PROFILE_VERSION := "1.0.0"
  const SCENARIO_FORMAT := "idaptik-ghost-lobby-v2"
  const SNAPSHOT_FORMAT := "idaptik-ghost-lobby-runtime-v3"
  const TAXONOMY_TERMS: seq<string> := [
    "room", "traversal", "camera_device", "security_actor", "non_security_actor", "prop", "objective",
    "network_action", "physical_effect"
  ]

  datatype ActorRole = Security | NonSecurity

  datatype Actor = Actor(id: string, role: ActorRole, binding: Option<string>)

  datatype Scheduled = Scheduled(tick: nat, command: Command)

  datatype Guarantees = Guarantees(deterministic: bool, snapshotFormat: string, requiredEvents: seq<string>)

  /** The scenario itself stays abstract; `faults` is what its own validator reports. */
  datatype Scenario = Scenario(id: string, format: string, faults: seq<string>)

  datatype GamePackage = GamePackage(
    format: string, contractId: string, contractVersion: string, game: string, gameVersion: string, profile: string,
    profileVersion: string, scenario: Scenario, scenarioId: string, seed: nat, runTicks: nat, snapshotTick: nat,
    taxonomy: map<string, string>, actors: seq<Actor>, commands: seq<Scheduled>, guarantees: Guarantees)

  datatype PackageError =
    | UnsupportedFormat
    | UnsupportedContract
    | IncompatibleGame
    | IncompatibleProfile
    | ScenarioIdMismatch
    | ScenarioFormatMismatch
    | ScenarioInvalid
    | MissingTaxonomyTerm(term: string)
    | MissingActorRole(role: ActorRole)
    | InvalidRuntimeBinding
    | InvalidSchedule
    | InvalidGuarantee
    | MissingRequiredEvent(event: string)
    | ReplayMismatch

  /// The loader

  function FirstMissing(terms: seq<string>, taxonomy: map<string, string>): Option<string> {
    if terms == [] then None
    else if terms[0] !in taxonomy || taxonomy[terms[0]] == "" then Some(terms[0])
    else FirstMissing(terms[1..], taxonomy)
  }

  /** Neighbours in order, as the loader compares them. */
  predicate NeighboursInOrder(commands: seq<Scheduled>) {
    forall i :: 0 <= i < |commands| - 1 ==> commands[i].tick <= commands[i + 1].tick
  }

  predicate ScheduleOk(p: GamePackage) {
    && p.runTicks >= 2 && 0 < p.snapshotTick < p.runTicks
    && NeighboursInOrder(p.commands)
    && forall c :: c in p.commands ==> c.tick < p.runTicks
  }

  predicate GuaranteesOk(gs: Guarantees) {
    && gs.deterministic && gs.snapshotFormat == SNAPSHOT_FORMAT && gs.requiredEvents != []
    && forall i, j :: 0 <= i < j < |gs.requiredEvents| ==> gs.requiredEvents[i] != gs.requiredEvents[j]
  }

  /** The loader's checks, in its order. */
  function Load(p: GamePackage): (r: Result<GamePackage, PackageError>)
    ensures r.Success? ==> r.value == p && ScheduleOk(p) && GuaranteesOk(p.guarantees)
  {
    if p.format != PACKAGE_FORMAT then Failure(UnsupportedFormat)
    else if p.contractId != CONTRACT_ID || p.contractVersion != CONTRACT_VERSION then Failure(UnsupportedContract)
    else if p.game != GAME_ID || p.gameVersion != GAME_VERSION then Failure(IncompatibleGame)
    else if p.profile != PROFILE_ID || p.profileVersion != PROFILE_VERSION then Failure(IncompatibleProfile)
    else if p.scenarioId != p.scenario.id then Failure(ScenarioIdMismatch)
    else if p.scenario.format != SCENARIO_FORMAT then Failure(ScenarioFormatMismatch)
    else if p.scenario.faults != [] then Failure(ScenarioInvalid)
    else if FirstMissing(TAXONOMY_TERMS, p.taxonomy).Some? then
      Failure(MissingTaxonomyTerm(FirstMissing(TAXONOMY_TERMS, p.taxonomy).value))
    else if !exists a :: a in p.actors && a.role == Security then Failure(MissingActorRole(Security))
    else if !exists a :: a in p.actors && a.role == NonSecurity then Failure(MissingActorRole(NonSecurity))
    else if !exists a :: a in p.actors && a.role == Security && a.binding == Some("billy")
    then Failure(InvalidRuntimeBinding)
    else if !ScheduleOk(p) then Failure(InvalidSchedule)
    else if !GuaranteesOk(p.guarantees) then Failure(InvalidGuarantee)
    else Success(p)
  }

  /** A package is accepted exactly when its envelope speaks of this game, its scenario is sound and the one it
      names, every term of the vocabulary means something, both kinds of actor are there and one of the guards
      is the game's own, and its schedule and guarantees hold. */
  lemma LoadAcceptsIff(p: GamePackage)
    ensures Load(p).Success? <==>
            && p.format == "idaptik-package/v1"
            && p.contractId == "dev.metadatastician.idaptik.package" && p.contractVersion == "1.0.0"
            && p.game == "idaptik" && p.gameVersion == "0.1.0" && p.profile == "idaptik" && p.profileVersion == "1.0.0"
            && p.scenarioId == p.scenario.id && p.scenario.format == "idaptik-ghost-lobby-v2" && p.scenario.faults == []
            && (forall term :: term in TAXONOMY_TERMS ==> term in p.taxonomy && p.taxonomy[term] != "")
            && (exists a :: a in p.actors && a.role == NonSecurity)
            && (exists a :: a in p.actors && a.role == Security && a.binding == Some("billy"))
            && p.runTicks >= 2 && 0 < p.snapshotTick < p.runTicks
            && (forall i, j :: 0 <= i < j < |p.commands| ==> p.commands[i].tick <= p.commands[j].tick)
            && (forall i :: 0 <= i < |p.commands| ==> p.commands[i].tick < p.runTicks)
            && p.guarantees.deterministic && p.guarantees.snapshotFormat == "idaptik-ghost-lobby-runtime-v3"
            && p.guarantees.requiredEvents != []
            && (forall i, j :: 0 <= i < j < |p.guarantees.requiredEvents| ==>
                  p.guarantees.requiredEvents[i] != p.guarantees.requiredEvents[j])
  {
    hide ScheduleOk;
    TermsAreThere(TAXONOMY_TERMS, p.taxonomy);
    ScheduleOkIff(p);
  }

  lemma ScheduleOkIff(p: GamePackage)
    ensures ScheduleOk(p) <==>
            && p.runTicks >= 2 && 0 < p.snapshotTick < p.runTicks
            && (forall i, j :: 0 <= i < j < |p.commands| ==> p.commands[i].tick <= p.commands[j].tick)
            && (forall i :: 0 <= i < |p.commands| ==> p.commands[i].tick < p.runTicks)
  {
    if NeighboursInOrder(p.commands) {
      forall i, j | 0 <= i < j < |p.commands|
        ensures p.commands[i].tick <= p.commands[j].tick
      {
        InOrderThroughout(p.commands, i, j);
      }
    }
  }

  lemma {:induction false} TermsAreThere(terms: seq<string>, taxonomy: map<string, string>)
    ensures FirstMissing(terms, taxonomy).None? <==>
            forall term :: term in terms ==> term in taxonomy && taxonomy[term] != ""
    ensures FirstMissing(terms, taxonomy).Some? ==>
              var term := FirstMissing(terms, taxonomy).value;
              term in terms && (term !in taxonomy || taxonomy[term] == "")
  {
    if terms != [] {
      TermsAreThere(terms[1..], taxonomy);
    }
  }

  /** The reason for a refusal is true, and everything the loader looks at before it was in order. */
  lemma RefusalsAreTrue(p: GamePackage)
    requires Load(p).Failure?
    ensures match Load(p).error
            case UnsupportedFormat => p.format != PACKAGE_FORMAT
            case UnsupportedContract => p.contractId != CONTRACT_ID || p.contractVersion != CONTRACT_VERSION
            case IncompatibleGame => p.game != GAME_ID || p.gameVersion != GAME_VERSION
            case IncompatibleProfile => p.profile != PROFILE_ID || p.profileVersion != PROFILE_VERSION
            case ScenarioIdMismatch => p.scenarioId != p.scenario.id
            case ScenarioFormatMismatch => p.scenario.format != SCENARIO_FORMAT
            case ScenarioInvalid => p.scenario.faults != []
            case MissingTaxonomyTerm(term) =>
              term in TAXONOMY_TERMS && (term !in p.taxonomy || p.taxonomy[term] == "") && p.scenario.faults == []
            case MissingActorRole(role) => forall a :: a in p.actors ==> a.role != role
            case InvalidRuntimeBinding => forall a :: a in p.actors && a.role == Security ==> a.binding != Some("billy")
            case InvalidSchedule => !ScheduleOk(p)
            case InvalidGuarantee => ScheduleOk(p) && !GuaranteesOk(p.guarantees)
            case MissingRequiredEvent(_) => false
            case ReplayMismatch => false
  {
    hide ScheduleOk, GuaranteesOk;
    TermsAreThere(TAXONOMY_TERMS, p.taxonomy);
  }

  /// Commands per tick

  /** The commands scheduled for `tick`, in authored order. */
  function CommandsAt(commands: seq<Scheduled>, tick: nat): seq<Command> {
    if commands == [] then []
    else
      var last := commands[|commands| - 1];
      CommandsAt(commands[..|commands| - 1], tick) + if last.tick == tick then [last.command] else []
  }

  method ListCommandsAt(commands: seq<Scheduled>, tick: nat) returns (out: seq<Command>)
    ensures out == CommandsAt(commands, tick)
  {
    out := [];
    for i := 0 to |commands|
      invariant out == CommandsAt(commands[..i], tick)
    {
      assert commands[..i + 1][..i] == commands[..i];
      if commands[i].tick == tick {
        out := out + [commands[i].command];
      }
    }
    assert commands[..|commands|] == commands;
  }

  function PerTick(commands: seq<Scheduled>, n: nat): (r: seq<seq<Command>>)
    ensures |r| == n && forall t :: 0 <= t < n ==> r[t] == CommandsAt(commands, t)
  {
    if n == 0 then [] else PerTick(commands, n - 1) + [CommandsAt(commands, n - 1)]
  }

  function Join(lists: seq<seq<Command>>): seq<Command> {
    if lists == [] then [] else Join(lists[..|lists| - 1]) + lists[|lists| - 1]
  }

  function Authored(commands: seq<Scheduled>): seq<Command> {
    if commands == [] then [] else Authored(commands[..|commands| - 1]) + [commands[|commands| - 1].command]
  }

  lemma {:induction false} InOrderThroughout(commands: seq<Scheduled>, i: nat, j: nat)
    requires NeighboursInOrder(commands) && i <= j < |commands|
    ensures commands[i].tick <= commands[j].tick
  {
    if i < j {
      InOrderThroughout(commands, i, j - 1);
    }
  }

  lemma {:induction false} NoneAt(commands: seq<Scheduled>, tick: nat)
    requires forall c :: c in commands ==> c.tick != tick
    ensures CommandsAt(commands, tick) == []
  {
    if commands != [] {
      NoneAt(commands[..|commands| - 1], tick);
      assert commands[|commands| - 1] in commands;
    }
  }

  /** The commands of the first `n` ticks, one tick after the other. */
  function Played(commands: seq<Scheduled>, n: nat): seq<Command> {
    if n == 0 then [] else Played(commands, n - 1) + CommandsAt(commands, n - 1)
  }

  lemma {:induction false} PlayedIsJoined(commands: seq<Scheduled>, n: nat)
    ensures Played(commands, n) == Join(PerTick(commands, n))
  {
    if n > 0 {
      PlayedIsJoined(commands, n - 1);
      assert PerTick(commands, n)[..n - 1] == PerTick(commands, n - 1);
    }
  }

  lemma {:induction false} NothingPlayed(n: nat)
    ensures Played([], n) == []
  {
    if n > 0 {
      NothingPlayed(n - 1);
    }
  }

  /** A tick before the last command's own lists nothing new, and one after it lists nothing at all. */
  lemma LastCommandAt(front: seq<Scheduled>, last: Scheduled, tick: nat)
    requires NeighboursInOrder(front + [last])
    ensures tick < last.tick ==> CommandsAt(front + [last], tick) == CommandsAt(front, tick)
    ensures tick == last.tick ==> CommandsAt(front + [last], tick) == CommandsAt(front, tick) + [last.command]
    ensures tick > last.tick ==> CommandsAt(front + [last], tick) == CommandsAt(front, tick) == []
  {
    var commands := front + [last];
    assert commands[..|front|] == front;
    if tick > last.tick {
      forall c | c in commands
        ensures c.tick != tick
      {
        var i :| 0 <= i < |commands| && commands[i] == c;
        InOrderThroughout(commands, i, |front|);
      }
      NoneAt(commands, tick);
    }
  }

  lemma {:induction false} PlayedTo(front: seq<Scheduled>, last: Scheduled, n: nat)
    requires NeighboursInOrder(front + [last]) && n <= last.tick
    ensures Played(front + [last], n) == Played(front, n)
  {
    if n > 0 {
      PlayedTo(front, last, n - 1);
      LastCommandAt(front, last, n - 1);
    }
  }

  /** The last command of an ordered schedule is the last one played. */
  lemma {:induction false} PlayedLast(front: seq<Scheduled>, last: Scheduled, n: nat)
    requires NeighboursInOrder(front + [last]) && last.tick < n
    ensures Played(front + [last], n) == Played(front, n) + [last.command]
  {
    hide CommandsAt;
    LastCommandAt(front, last, n - 1);
    if last.tick == n - 1 {
      PlayedTo(front, last, n - 1);
    } else {
      PlayedLast(front, last, n - 1);
    }
  }

  lemma {:induction false} PlayedIsAuthored(commands: seq<Scheduled>, n: nat)
    requires NeighboursInOrder(commands) && forall c :: c in commands ==> c.tick < n
    ensures Played(commands, n) == Authored(commands)
  {
    if commands == [] {
      NothingPlayed(n);
    } else {
      var front, last := commands[..|commands| - 1], commands[|commands| - 1];
      assert commands == front + [last] && last in commands;
      PlayedIsAuthored(front, n);
      PlayedLast(front, last, n);
    }
  }

  /** Running through the ticks plays every authored command once, in the authored order. */
  lemma TicksCoverTheSchedule(commands: seq<Scheduled>, n: nat)
    requires NeighboursInOrder(commands) && forall c :: c in commands ==> c.tick < n
    ensures Join(PerTick(commands, n)) == Authored(commands)
  {
    PlayedIsAuthored(commands, n);
    PlayedIsJoined(commands, n);
  }

  /// The run

  datatype Stage =
    | CameraSignalFailed
    | InterferenceAppraised
    | AnxietyUpdated
    | VerificationGoalRaised
    | VerifyFeedSelected
    | TeamProtectionContext

  datatype Appraisal = Appraisal(tick: nat, sequence: nat, actor: string, stage: Stage, state: string, valueMilli: int)

  datatype RoundTrip = RoundTrip(events: seq<Event>, trace: seq<Appraisal>, snapshot: Snapshot, final: Snapshot)

  const STAGES: seq<(Stage, string, int)> := [
    (CameraSignalFailed, "camera_feed_failed", 1000),
    (InterferenceAppraised, "possible_interference_not_confirmed", 550),
    (AnxietyUpdated, "anxiety_delta", 180),
    (VerificationGoalRaised, "verify_feed_priority", 800),
    (VerifyFeedSelected, "verify_camera_feed", 1000),
    (TeamProtectionContext, "protect_security_team", 650)
  ]

  /** How the guard takes a failing camera. */
  function CameraFailure(tick: nat): (chain: seq<Appraisal>)
    ensures |chain| == 6
  {
    seq(|STAGES|, i requires 0 <= i < |STAGES| =>
      Appraisal(tick, i, "billy", STAGES[i].0, STAGES[i].1, STAGES[i].2))
  }

  /** The package's run after `n` ticks; unlike the script runner it never looks whether the game has ended. */
  function RunTo(g: Game, sim: Sim, commands: seq<Scheduled>, n: nat): Progress {
    Exec(g, Run(sim, []), PerTick(commands, n))
  }

  lemma OneTickOn(g: Game, sim: Sim, commands: seq<Scheduled>, n: nat)
    ensures RunTo(g, sim, commands, n + 1) == TickCommands(g, RunTo(g, sim, commands, n), CommandsAt(commands, n))
  {
    assert PerTick(commands, n + 1)[..n] == PerTick(commands, n);
  }

  /** What tick `n` of the run reports. */
  function EventsOfTick(g: Game, sim: Sim, commands: seq<Scheduled>, n: nat): seq<Event> {
    var now := RunTo(g, sim, commands, n);
    g.tick(now.run.sim, InputOf(CommandsAt(commands, n), now.held)).1
  }

  predicate Pinged(events: seq<Event>, ping: Event -> bool) {
    exists e :: e in events && ping(e)
  }

  /** The appraisals of the first `n` ticks: one chain for each tick that pinged a camera. */
  function TraceTo(g: Game, sim: Sim, commands: seq<Scheduled>, ping: Event -> bool, n: nat): seq<Appraisal> {
    if n == 0 then []
    else
      TraceTo(g, sim, commands, ping, n - 1)
      + if Pinged(EventsOfTick(g, sim, commands, n - 1), ping) then CameraFailure(n - 1) else []
  }

  predicate Earlier(a: Appraisal, b: Appraisal) {
    a.tick < b.tick || (a.tick == b.tick && a.sequence < b.sequence)
  }

  /** The trace is in order of tick and stage without repeats, and appraises exactly the ticks that pinged a
      camera, each in all six stages. */
  lemma {:induction false} TraceAppraisesThePings(g: Game, sim: Sim, commands: seq<Scheduled>, ping: Event -> bool,
                                                  n: nat)
    ensures var trace := TraceTo(g, sim, commands, ping, n);
            && (forall i, j :: 0 <= i < j < |trace| ==> Earlier(trace[i], trace[j]))
            && forall a :: a in trace <==>
                 a.tick < n && Pinged(EventsOfTick(g, sim, commands, a.tick), ping) && a in CameraFailure(a.tick)
  {
    hide EventsOfTick, Pinged;
    if n > 0 {
      TraceAppraisesThePings(g, sim, commands, ping, n - 1);
      ChainIsInOrder(n - 1);
      var before, chain := TraceTo(g, sim, commands, ping, n - 1), CameraFailure(n - 1);
      forall i | 0 <= i < |before|
        ensures before[i].tick < n - 1
      {
        assert before[i] in before;
      }
      assert forall a :: a in before + chain <==> a in before || a in chain;
    }
  }

  lemma ChainIsInOrder(tick: nat)
    ensures var chain := CameraFailure(tick);
            && (forall i :: 0 <= i < |chain| ==> chain[i].tick == tick)
            && (forall i, j :: 0 <= i < j < |chain| ==> Earlier(chain[i], chain[j]))
  {
  }

  /** The first required event no observed event is named after. */
  function Unmet(required: seq<string>, observed: set<string>): (r: Option<string>)
    ensures r.None? <==> forall e :: e in required ==> e in observed
    ensures r.Some? ==> r.value in required && r.value !in observed
  {
    if required == [] then None
    else if required[0] !in observed then Some(required[0])
    else Unmet(required[1..], observed)
  }

  ghost function Names(events: seq<Event>, name: Event -> Option<string>): set<string> {
    set e | e in events && name(e).Some? :: name(e).value
  }

  method CollectNames(events: seq<Event>, name: Event -> Option<string>) returns (observed: set<string>)
    ensures observed == Names(events, name)
  {
    observed := {};
    for i := 0 to |events|
      invariant observed == Names(events[..i], name)
    {
      assert forall e :: e in events[..i + 1] <==> e in events[..i] || e == events[i];
      if name(events[i]).Some? {
        NamesGrow(events[..i], events[i], name);
        observed := observed + {name(events[i]).value};
      }
      assert events[..i + 1] == events[..i] + [events[i]];
    }
    assert events[..|events|] == events;
  }

  lemma NamesGrow(events: seq<Event>, e: Event, name: Event -> Option<string>)
    requires name(e).Some?
    ensures Names(events + [e], name) == Names(events, name) + {name(e).value}
  {
    assert (events + [e])[|events|] == e && e in events + [e];
    assert forall d :: d in events + [e] <==> d in events || d == e;
    forall n | n in Names(events, name) + {name(e).value}
      ensures n in Names(events + [e], name)
    {
      if n != name(e).value {
        var d :| d in events && name(d) == Some(n);
        assert d in events + [e];
      }
    }
  }

  /** What the first pass leaves behind. */
  datatype Saved = Saved(snapshot: Snapshot, held: Buttons, eventCount: nat)

  /** The first pass: every tick once, with the snapshot, the held set and the event count saved on the way,
      and the guard's appraisal of every tick that pinged a camera. */
  method FirstPass(g: Game, sim0: Sim, ping: Event -> bool, p: GamePackage)
    returns (run: Run, trace: seq<Appraisal>, saved: Option<Saved>)
    ensures trace == TraceTo(g, sim0, p.commands, ping, p.runTicks)
    ensures run == RunTo(g, sim0, p.commands, p.runTicks).run
    ensures saved.Some? <==> 1 <= p.snapshotTick <= p.runTicks
    ensures saved.Some? ==> var at := RunTo(g, sim0, p.commands, p.snapshotTick);
                            saved.value == Saved(g.snapshot(at.run.sim), at.held, |at.run.log|)
  {
    hide InputOf, HeldAfter, CommandsAt;
    run, trace, saved := Run(sim0, []), [], None;
    var held := NO_BUTTONS;
    for tick := 0 to p.runTicks
      invariant Progress(run, held) == RunTo(g, sim0, p.commands, tick)
      invariant trace == TraceTo(g, sim0, p.commands, ping, tick)
      invariant saved.Some? <==> 1 <= p.snapshotTick <= tick
      invariant saved.Some? ==> var at := RunTo(g, sim0, p.commands, p.snapshotTick);
                                saved.value == Saved(g.snapshot(at.run.sim), at.held, |at.run.log|)
    {
      OneTickOn(g, sim0, p.commands, tick);
      var cmds := ListCommandsAt(p.commands, tick);
      var input;
      input, held := Fold(cmds, held);
      var (next, events) := g.tick(run.sim, input);
      if exists e :: e in events && ping(e) {
        trace := trace + CameraFailure(tick);
      }
      run := Run(next, run.log + events);
      if tick + 1 == p.snapshotTick {
        saved := Some(Saved(g.snapshot(run.sim), held, |run.log|));
      }
    }
  }

  /** The second pass, from a restored state and the saved held set. */
  method Replay(g: Game, ghost sim0: Sim, restored: Sim, held0: Buttons, p: GamePackage)
    returns (sim: Sim, tail: seq<Event>)
    requires p.snapshotTick <= p.runTicks
    requires var at := RunTo(g, sim0, p.commands, p.snapshotTick); restored == at.run.sim && held0 == at.held
    ensures var end := RunTo(g, sim0, p.commands, p.runTicks).run;
            sim == end.sim && end.log == RunTo(g, sim0, p.commands, p.snapshotTick).run.log + tail
  {
    hide InputOf, HeldAfter, Exec, PerTick, CommandsAt;
    sim, tail := restored, [];
    var held := held0;
    for tick := p.snapshotTick to p.runTicks
      invariant var now := RunTo(g, sim0, p.commands, tick);
                && now.run.sim == sim && now.held == held
                && now.run.log == RunTo(g, sim0, p.commands, p.snapshotTick).run.log + tail
    {
      OneTickOn(g, sim0, p.commands, tick);
      var cmds := ListCommandsAt(p.commands, tick);
      var input;
      input, held := Fold(cmds, held);
      var (next, events) := g.tick(sim, input);
      sim, tail := next, tail + events;
    }
  }

  /** Execute, snapshot, restore and replay. Over a simulation whose snapshots restore faithfully the replay
      never mismatches, and the snapshot is missed exactly when it lies outside the run. */
  method RunPackage(g: Game, create: (Scenario, nat) -> Option<Sim>, name: Event -> Option<string>,
                    ping: Event -> bool, p: GamePackage)
    returns (r: Result<RoundTrip, PackageError>)
    requires Faithful(g)
    ensures r == Failure(ScenarioInvalid) <==> create(p.scenario, p.seed).None?
    ensures create(p.scenario, p.seed).Some? ==>
              (r == Failure(InvalidSchedule) <==> !(1 <= p.snapshotTick <= p.runTicks))
    ensures r != Failure(ReplayMismatch)
    ensures create(p.scenario, p.seed).Some? && 1 <= p.snapshotTick <= p.runTicks ==>
              var sim := create(p.scenario, p.seed).value;
              var run := RunTo(g, sim, p.commands, p.runTicks).run;
              var unmet := Unmet(p.guarantees.requiredEvents, Names(run.log, name));
              r == if unmet.Some? then Failure(MissingRequiredEvent(unmet.value))
                   else Success(RoundTrip(run.log, TraceTo(g, sim, p.commands, ping, p.runTicks),
                                          g.snapshot(RunTo(g, sim, p.commands, p.snapshotTick).run.sim),
                                          g.snapshot(run.sim)))
  {
    var sim0 := create(p.scenario, p.seed);
    if sim0.None? {
      return Failure(ScenarioInvalid);
    }
    var run, trace, saved := FirstPass(g, sim0.value, ping, p);
    if saved.None? {
      return Failure(InvalidSchedule);
    }
    var restored := g.restore(saved.value.snapshot);
    if restored.None? {
      return Failure(ScenarioInvalid);
    }
    var sim, tail := Replay(g, sim0.value, restored.value, saved.value.held, p);
    if g.snapshot(sim) != g.snapshot(run.sim) || run.log[saved.value.eventCount..] != tail {
      return Failure(ReplayMismatch);
    }
    var observed := CollectNames(run.log, name);
    var unmet := Unmet(p.guarantees.requiredEvents, observed);
    if unmet.Some? {
      return Failure(MissingRequiredEvent(unmet.value));
    }
    r := Success(RoundTrip(run.log, trace, saved.value.snapshot, g.snapshot(run.sim)));
  }

  /** Load, then run. */
  method LoadAndRun(g: Game, create: (Scenario, nat) -> Option<Sim>, name: Event -> Option<string>,
                    ping: Event -> bool, p: GamePackage)
    returns (r: Result<RoundTrip, PackageError>)
    requires Faithful(g) && forall s: Scenario, seed :: s.faults == [] ==> create(s, seed).Some?
    ensures Load(p).Failure? ==> r == Failure(Load(p).error)
    ensures Load(p).Success? ==> r.Success? || r.error.MissingRequiredEvent?
    ensures Load(p).Success? ==> Join(PerTick(p.commands, p.runTicks)) == Authored(p.commands)
  {
    var loaded := Load(p);
    if loaded.Failure? {
      return Failure(loaded.error);
    }
    TicksCoverTheSchedule(p.commands, p.runTicks);
    r := RunPackage(g, create, name, ping, loaded.value);
  }
}
