/** The companion mole: its commands, its state machine and its tick, over exact reals. */
module Moletaire {
  import opened Wrappers

  datatype MoleState =
    | Idle | MovingUnderground | MovingAboveGround | DiggingTrap | SabotagingCable | CarryingItem
    | Distracted | Gliding | Crushed | CaughtByDog | Dead

  datatype Facing = Left | Right

  datatype Equipment = Skateboard | Glider | BatteringRam | Beacon | Rucksack | FlashCamera | PlasmaCutter

  datatype Level = Stock | Basic | Enhanced | Overclocked

  datatype Slot = AudioSynthesiser | PathOptimiser | SignalProcessor | VibrationAnalyser | StabilisationCore

  datatype Bay = Bay(audio: Level, path: Level, signal: Level, vibration: Level, stabilisation: Level)

  datatype VibrationReading = NoData | DirectionOnly | DirectionAndIntent | FullProfile

  datatype Edible = Edible(id: string, x: real, y: real, consumed: bool)

  datatype Field = Field(pull: real, nearest: Option<string>, dist: real)

  datatype Tuning = Tuning(
    undergroundSpeed: real, aboveGroundSpeed: real, skateboardSpeed: real, surfaceThreshold: real,
    trapDigDuration: real, cableSabotageDuration: real, distractionDuration: real, itemEatChance: real,
    baseCapacity: nat, rucksackCapacity: nat, gliderHeightMultiplier: real, gliderFallSpeed: real,
    hungerRate: real, hungryThreshold: real, starvingThreshold: real, fightInterval: real, fightDuration: real,
    depthSpeed: real, depthEpsilon: real, arriveDistance: real, carryingMultiplier: real, wireRange: real,
    scanInterval: real, glideRate: real, dragMultiplier: real, wanderMultiplier: real, wanderMinDistance: real,
    diveTargetDepth: real, diveTriggerDepth: real, digMinDepth: real)

  /** The definition. The coprocessor ladders, the hunger field and the seeded random stream are functions. */
  datatype Definition = Definition(
    t: Tuning, soundCount: Level -> nat, pathEfficiency: Level -> real, sensorRange: Level -> nat,
    vibrationQuality: Level -> VibrationReading, eatChanceMultiplier: Level -> real, sounds: seq<string>,
    totalPull: (real, real, real, seq<Edible>) -> Field, random: nat -> real, cableName: real -> string)

  /** What the validator demands of the carry capacities. */
  predicate ValidDefinition(def: Definition) {
    1 <= def.t.baseCapacity <= def.t.rucksackCapacity
  }

  datatype MoleEvent =
    | TrapTriggered(x: real, y: real)
    | CableSabotaged(cable: string)
    | ItemDelivered(item: string)
    | ItemEaten(item: string)
    | FlashFired
    | MoleDied(state: MoleState)
    | GlideComplete(x: real)
    | ReachedDestination
    | FoodEaten
    | ItemPickedUp(item: string)
    | ItemDropped(item: string)
    | GlideStarted(height: real)
    | HungerResistanceStarted
    | HungerResistanceEnded
    | SynthSoundPlayed(sound: string)
    | VibrationDetected(reading: VibrationReading)
    | UndergroundScanComplete(objects: nat)

  datatype Command =
    | MoveTo(target: real, underground: bool)
    | DigTrap
    | SabotageCable
    | GiveItem(item: string)
    | DropItem(item: string)
    | Deliver(x: real)
    | Equip(equipment: Equipment)
    | Unequip
    | UseFlash
    | LaunchGlider(height: real)
    | PlaySynthSound(index: nat)
    | DistractByWire(x: real)
    | Crush
    | CatchByDog
    | Feed
    | SetHungerTarget(x: real)
    | UpgradeCoprocessor(slot: Slot)

  datatype Mole = Mole(
    state: MoleState, x: real, y: real, depth: real, facing: Facing, targetX: Option<real>, targetDepth: Option<real>,
    equipped: Option<Equipment>, actionTimer: real, dodgeTimer: real, carried: seq<string>, distractionTimer: real,
    distractionX: Option<real>, glideHeight: real, glideDistance: real, glideProgress: real, alive: bool, hunger: real,
    fightTimer: real, resisting: bool, hungerTargetX: Option<real>, levelMultiplier: real, bay: Bay, scanTimer: real,
    pending: seq<MoleEvent>)

  function Newborn(x: real, y: real, equipped: Option<Equipment>, levelMultiplier: real): Mole {
    Mole(Idle, x, y, 0.0, Right, None, None, equipped, 0.0, 0.0, [], 0.0, None, 0.0, 0.0, 0.0, true, 0.0, 0.0, false,
         None, levelMultiplier, Bay(Stock, Stock, Stock, Stock, Stock), 0.0, [])
  }

  function Emit(m: Mole, e: MoleEvent): Mole {
    m.(pending := m.pending + [e])
  }

  function Abs(x: real): real {
    if x < 0.0 then -x else x
  }

  function Toward(dx: real): Facing {
    if dx > 0.0 then Right else Left
  }

  function Sign(dx: real): real {
    if dx > 0.0 then 1.0 else -1.0
  }

  /// Commands

  function Capacity(def: Definition, m: Mole): nat {
    if m.equipped == Some(Rucksack) then def.t.rucksackCapacity else def.t.baseCapacity
  }

  function OrderedTo(def: Definition, m: Mole, target: real, underground: bool): Mole {
    if !m.alive || m.state == Dead then m
    else if underground then
      var dive := if m.depth < def.t.diveTriggerDepth then Some(def.t.diveTargetDepth) else m.targetDepth;
      m.(targetX := Some(target), state := MovingUnderground, targetDepth := dive)
    else
      var surface := if m.depth > def.t.surfaceThreshold then Some(0.0) else m.targetDepth;
      m.(targetX := Some(target), state := MovingAboveGround, targetDepth := surface)
  }

  predicate CanDig(def: Definition, m: Mole) {
    m.alive && m.state != Dead && m.depth > def.t.digMinDepth
  }

  predicate CanTake(def: Definition, m: Mole) {
    m.alive && |m.carried| < Capacity(def, m)
  }

  function Given(def: Definition, m: Mole, item: string): Mole {
    if CanTake(def, m) then Emit(m.(carried := m.carried + [item], state := CarryingItem), ItemPickedUp(item)) else m
  }

  /** Where `item` is first carried, or the number carried. */
  function IndexOf(items: seq<string>, item: string): (i: nat)
    ensures i <= |items| && (i < |items| ==> items[i] == item) && item !in items[..i]
  {
    if items == [] then 0
    else if items[0] == item then 0
    else
      var i := IndexOf(items[1..], item);
      assert items[..i + 1] == [items[0]] + items[1..][..i];
      i + 1
  }

  function Removed(items: seq<string>, i: nat): seq<string>
    requires i < |items|
  {
    items[..i] + items[i + 1..]
  }

  function Dropped(m: Mole, item: string): Mole {
    var i := IndexOf(m.carried, item);
    if i == |m.carried| then m
    else
      var rest := Removed(m.carried, i);
      Emit(m.(carried := rest, state := if rest == [] then Idle else m.state), ItemDropped(item))
  }

  /** What leaving the rucksack keeps. */
  function Kept(def: Definition, m: Mole, next: Option<Equipment>): seq<string> {
    if m.equipped == Some(Rucksack) && next != Some(Rucksack) && |m.carried| > def.t.baseCapacity
    then m.carried[..def.t.baseCapacity] else m.carried
  }

  function Equipped(def: Definition, m: Mole, next: Option<Equipment>): Mole {
    m.(carried := Kept(def, m, next), equipped := next)
  }

  predicate CanGlide(def: Definition, m: Mole) {
    m.alive && m.equipped == Some(Glider) && m.depth < def.t.surfaceThreshold
  }

  function Launched(def: Definition, m: Mole, height: real): Mole {
    if CanGlide(def, m) then
      Emit(m.(state := Gliding, glideHeight := height, glideDistance := height * def.t.gliderHeightMultiplier,
              glideProgress := 0.0), GlideStarted(height))
    else m
  }

  predicate CanPlay(def: Definition, m: Mole, index: nat) {
    m.alive && index < def.soundCount(m.bay.audio) && index < |def.sounds|
  }

  predicate CanDistract(def: Definition, m: Mole, x: real) {
    m.alive && m.state != Dead && m.state != DiggingTrap && m.state != SabotagingCable && Abs(x - m.x) < def.t.wireRange
  }

  function Higher(l: Level): Level {
    match l
    case Stock => Basic
    case Basic => Enhanced
    case _ => Overclocked
  }

  function Upgraded(bay: Bay, slot: Slot): Bay {
    match slot
    case AudioSynthesiser => bay.(audio := Higher(bay.audio))
    case PathOptimiser => bay.(path := Higher(bay.path))
    case SignalProcessor => bay.(signal := Higher(bay.signal))
    case VibrationAnalyser => bay.(vibration := Higher(bay.vibration))
    case StabilisationCore => bay.(stabilisation := Higher(bay.stabilisation))
  }

  function Applied(def: Definition, m: Mole, c: Command): Mole {
    match c
    case MoveTo(target, underground) => OrderedTo(def, m, target, underground)
    case DigTrap => if CanDig(def, m) then m.(state := DiggingTrap, actionTimer := def.t.trapDigDuration) else m
    case SabotageCable =>
      if CanDig(def, m) then m.(state := SabotagingCable, actionTimer := def.t.cableSabotageDuration) else m
    case GiveItem(item) => Given(def, m, item)
    case DropItem(item) => Dropped(m, item)
    case Deliver(x) => if m.alive && m.carried != [] then m.(targetX := Some(x)) else m
    case Equip(equipment) => Equipped(def, m, Some(equipment))
    case Unequip => Equipped(def, m, None)
    case UseFlash => if m.alive && m.equipped == Some(FlashCamera) then Emit(m, FlashFired) else m
    case LaunchGlider(height) => Launched(def, m, height)
    case PlaySynthSound(index) => if CanPlay(def, m, index) then Emit(m, SynthSoundPlayed(def.sounds[index])) else m
    case DistractByWire(x) =>
      if CanDistract(def, m, x)
      then m.(state := Distracted, distractionTimer := def.t.distractionDuration, distractionX := Some(x)) else m
    case Crush => if m.alive then m.(state := Crushed, alive := false) else m
    case CatchByDog => if m.alive then m.(state := CaughtByDog, alive := false) else m
    case Feed => Emit(m.(hunger := 0.0, fightTimer := 0.0, resisting := false, hungerTargetX := None), FoodEaten)
    case SetHungerTarget(x) => m.(hungerTargetX := Some(x))
    case UpgradeCoprocessor(slot) => m.(bay := Upgraded(m.bay, slot))
  }

  /// Movement and the state machine

  /** A mole, the number of random draws taken so far, and what a step reported. */
  datatype Step = Step(m: Mole, draws: nat, event: Option<MoleEvent>)

  function Deepened(def: Definition, m: Mole, dt: real): Mole {
    if m.targetDepth.None? then m
    else
      var diff := m.targetDepth.value - m.depth;
      if Abs(diff) < def.t.depthEpsilon then m.(depth := m.targetDepth.value, targetDepth := None)
      else m.(depth := m.depth + Sign(diff) * def.t.depthSpeed * dt)
  }

  function Speed(def: Definition, m: Mole): real {
    match m.state
    case MovingUnderground => def.t.undergroundSpeed * def.pathEfficiency(m.bay.path)
    case MovingAboveGround => if m.equipped == Some(Skateboard) then def.t.skateboardSpeed else def.t.aboveGroundSpeed
    case CarryingItem =>
      if m.depth > def.t.surfaceThreshold
      then def.t.undergroundSpeed * def.t.carryingMultiplier * def.pathEfficiency(m.bay.path)
      else def.t.aboveGroundSpeed
    case _ => 0.0
  }

  /** Arrival: a carrying mole hands over its first item, eaten or delivered by one roll. */
  function Arrived(def: Definition, m: Mole, draws: nat, target: real): Step {
    var there := m.(x := target, targetX := None);
    if m.state == CarryingItem && m.carried != [] then
      var rest := m.carried[1..];
      var eaten := def.random(draws) < def.t.itemEatChance * def.eatChanceMultiplier(m.bay.stabilisation);
      Step(there.(carried := rest, state := if rest == [] then Idle else CarryingItem), draws + 1,
           Some(if eaten then ItemEaten(m.carried[0]) else ItemDelivered(m.carried[0])))
    else Step(there.(state := Idle), draws, Some(ReachedDestination))
  }

  function Strode(def: Definition, m: Mole, dx: real, dt: real): Mole {
    m.(x := m.x + Sign(dx) * Speed(def, m) * dt, facing := Toward(dx))
  }

  function MovementStep(def: Definition, m0: Mole, draws: nat, dt: real): Step {
    var m := Deepened(def, m0, dt);
    if m.targetX.None? then Step(m, draws, None)
    else
      var dx := m.targetX.value - m.x;
      if Abs(dx) < def.t.arriveDistance then Arrived(def, m, draws, m.targetX.value)
      else Step(Strode(def, m, dx, dt), draws, None)
  }

  function DistractedStep(def: Definition, m0: Mole, dt: real): Mole {
    var m := m0.(distractionTimer := m0.distractionTimer - dt);
    var drawn :=
      if m.distractionX.None? then m
      else
        var dx := m.distractionX.value - m.x;
        m.(x := m.x + Sign(dx) * def.t.aboveGroundSpeed * dt, facing := Toward(dx));
    if drawn.distractionTimer <= 0.0 then drawn.(state := Idle, distractionX := None) else drawn
  }

  function Glided(def: Definition, m: Mole, dt: real): Mole {
    var speed := m.glideDistance / 2.0 * def.t.gliderFallSpeed / 60.0;
    m.(x := m.x + (if m.facing == Right then 1.0 else -1.0) * speed * dt,
       glideProgress := m.glideProgress + dt * def.t.glideRate)
  }

  function StateStep(def: Definition, m: Mole, draws: nat, dt: real): Step {
    if !m.alive then Step(m, draws, None)
    else
      match m.state
      case Idle => Step(m, draws, None)
      case Dead => Step(m, draws, None)
      case MovingUnderground => MovementStep(def, m, draws, dt)
      case MovingAboveGround => MovementStep(def, m, draws, dt)
      case CarryingItem => MovementStep(def, m, draws, dt)
      case DiggingTrap =>
        var worked := m.(actionTimer := m.actionTimer - dt);
        if worked.actionTimer <= 0.0 then Step(worked.(state := Idle), draws, Some(TrapTriggered(m.x, m.y)))
        else Step(worked, draws, None)
      case SabotagingCable =>
        var worked := m.(actionTimer := m.actionTimer - dt);
        if worked.actionTimer <= 0.0 then Step(worked.(state := Idle), draws, Some(CableSabotaged(def.cableName(m.x))))
        else Step(worked, draws, None)
      case Distracted => Step(DistractedStep(def, m, dt), draws, None)
      case Gliding =>
        var glided := Glided(def, m, dt);
        if glided.glideProgress >= 1.0 then
          Step(glided.(state := Idle, depth := 0.0), draws, Some(GlideComplete(glided.x)))
        else Step(glided, draws, None)
      case _ => Step(m.(alive := false, state := Dead), draws, Some(MoleDied(Dead)))
  }

  /// The rest of a tick

  function EmitIf(m: Mole, e: Option<MoleEvent>): Mole {
    if e.Some? then Emit(m, e.value) else m
  }

  function Underground(def: Definition, m: Mole): bool {
    m.alive && m.depth > def.t.surfaceThreshold
  }

  function Scan(def: Definition, m: Mole): Option<MoleEvent> {
    var objects := if Underground(def, m) then def.sensorRange(m.bay.signal) else 0;
    if (m.state == MovingUnderground || m.state == DiggingTrap) && objects > 0
    then Some(UndergroundScanComplete(objects)) else None
  }

  function Vibration(def: Definition, m: Mole): Option<MoleEvent> {
    var reading := if Underground(def, m) then def.vibrationQuality(m.bay.vibration) else NoData;
    if reading == NoData then None else Some(VibrationDetected(reading))
  }

  function Scanned(def: Definition, m: Mole, dt: real): Mole {
    if !Underground(def, m) then m
    else
      var ticked := m.(scanTimer := m.scanTimer - dt);
      if ticked.scanTimer > 0.0 then ticked
      else
        var reset := ticked.(scanTimer := def.t.scanInterval);
        EmitIf(EmitIf(reset, Scan(def, reset)), Vibration(def, reset))
  }

  function FindEdible(edibles: seq<Edible>, id: string): Option<real> {
    if edibles == [] then None
    else if edibles[0].id == id then Some(edibles[0].x)
    else FindEdible(edibles[1..], id)
  }

  function HungerRate(def: Definition, m: Mole): real {
    var moving := m.state == MovingUnderground || m.state == MovingAboveGround || m.state == CarryingItem;
    def.t.hungerRate * (if moving then 1.5 else 0.5) * (1.0 + m.hunger * 0.5)
    * def.eatChanceMultiplier(m.bay.stabilisation) * m.levelMultiplier
  }

  /** Hunger grows, capped at starving, and the mole looks toward the nearest edible. */
  function Hungrier(def: Definition, m: Mole, dt: real, edibles: seq<Edible>): Mole {
    var grown := m.hunger + HungerRate(def, m) * dt;
    var hunger := if grown < 1.0 then grown else 1.0;
    var field := def.totalPull(m.x, m.y, hunger, edibles);
    m.(hunger := hunger,
       hungerTargetX := if field.nearest.Some? then FindEdible(edibles, field.nearest.value) else None)
  }

  /** The resistance episode timer. */
  function Resisted(def: Definition, m: Mole, dt: real): Mole {
    var timer := m.fightTimer + dt;
    if timer > def.t.fightInterval + def.t.fightDuration && timer > def.t.fightInterval
    then m.(fightTimer := 0.0, resisting := false)
    else m.(fightTimer := timer, resisting := timer > def.t.fightInterval)
  }

  function Pulled(def: Definition, m: Mole, dt: real, pull: real): Mole {
    if m.resisting then m.(x := m.x + pull * dt, facing := if pull != 0.0 then Toward(pull) else m.facing)
    else m.(x := m.x + pull * def.t.dragMultiplier * dt)
  }

  /** A starving mole with nothing near enough wanders by one draw. */
  function Wanders(def: Definition, m: Mole, dist: real): bool {
    m.hunger > def.t.starvingThreshold && dist > def.t.wanderMinDistance
  }

  function Wandered(def: Definition, m: Mole, draws: nat, dt: real): Mole {
    var dir := if def.random(draws) > 0.5 then 1.0 else -1.0;
    m.(x := m.x + dir * def.t.aboveGroundSpeed * def.t.wanderMultiplier * dt)
  }

  function Driven(def: Definition, m: Mole, draws: nat, dt: real, field: Field): Step {
    if m.hunger > def.t.hungryThreshold then
      var pulled := Pulled(def, Resisted(def, m, dt), dt, field.pull);
      if Wanders(def, pulled, field.dist) then Step(Wandered(def, pulled, draws, dt), draws + 1, None)
      else Step(pulled, draws, None)
    else Step(m.(resisting := false), draws, None)
  }

  function Transition(was: bool, now: bool): Option<MoleEvent> {
    if !was && now then Some(HungerResistanceStarted)
    else if was && !now then Some(HungerResistanceEnded)
    else None
  }

  function Hungered(def: Definition, m: Mole, draws: nat, dt: real, edibles: seq<Edible>): Step {
    if !m.alive then Step(m, draws, None)
    else
      var hungry := Hungrier(def, m, dt, edibles);
      var driven := Driven(def, hungry, draws, dt, def.totalPull(m.x, m.y, hungry.hunger, edibles));
      driven.(m := EmitIf(driven.m, Transition(m.resisting, driven.m.resisting)))
  }

  function Dodged(m: Mole, dt: real): Mole {
    if m.dodgeTimer > 0.0 then m.(dodgeTimer := m.dodgeTimer - dt) else m
  }

  /** The first half of a tick: the state machine, its event, and the dodge countdown. */
  function Walked(def: Definition, m: Mole, draws: nat, dt: real): Step {
    var moved := StateStep(def, m, draws, dt);
    Step(Dodged(EmitIf(moved.m, moved.event), dt), moved.draws, None)
  }

  /** The second half: the scans, then hunger. */
  function Sensed(def: Definition, m: Mole, draws: nat, dt: real, edibles: seq<Edible>): Step {
    Hungered(def, Scanned(def, m, dt), draws, dt, edibles)
  }

  /** A tick up to the draining of its events. */
  function Stirred(def: Definition, m: Mole, draws: nat, dt: real, edibles: seq<Edible>): Step {
    var walked := Walked(def, m, draws, dt);
    Sensed(def, walked.m, walked.draws, dt, edibles)
  }

  /// The simulation

  class MoletaireSim {
    const def: Definition
    var draws: nat
    var ticks: nat
    var s: Mole

    constructor (def: Definition, x: real, y: real, equipped: Option<Equipment>, levelMultiplier: real)
      requires ValidDefinition(def)
      ensures this.def == def && draws == 0 && ticks == 0 && s == Newborn(x, y, equipped, levelMultiplier)
    {
      this.def, draws, ticks := def, 0, 0;
      s := Newborn(x, y, equipped, levelMultiplier);
    }

    method EmitEvent(e: MoleEvent)
      modifies this`s
      ensures s == Emit(old(s), e)
    {
      s := s.(pending := s.pending + [e]);
    }

    method DrainEvents() returns (events: seq<MoleEvent>)
      modifies this`s
      ensures events == old(s.pending) && s == old(s).(pending := [])
    {
      events := s.pending;
      s := s.(pending := []);
    }

    method OrderMoveTo(target: real, underground: bool)
      modifies this`s
      ensures s == Applied(def, old(s), MoveTo(target, underground))
    {
      if s.alive && s.state != Dead {
        s := s.(targetX := Some(target));
        if underground {
          s := s.(state := MovingUnderground);
          if s.depth < def.t.diveTriggerDepth {
            s := s.(targetDepth := Some(def.t.diveTargetDepth));
          }
        } else {
          s := s.(state := MovingAboveGround);
          if s.depth > def.t.surfaceThreshold {
            s := s.(targetDepth := Some(0.0));
          }
        }
      }
    }

    method DoGiveItem(item: string) returns (taken: bool)
      modifies this`s
      ensures s == Applied(def, old(s), GiveItem(item)) && taken == CanTake(def, old(s))
    {
      taken := s.alive && |s.carried| < Capacity(def, s);
      if taken {
        s := s.(carried := s.carried + [item]);
        s := s.(state := CarryingItem);
        EmitEvent(ItemPickedUp(item));
      }
    }

    method DoDropItem(item: string) returns (dropped: bool)
      modifies this`s
      ensures s == Applied(def, old(s), DropItem(item)) && dropped == (item in old(s.carried))
    {
      var i := 0;
      while i < |s.carried| && s.carried[i] != item
        invariant i <= |s.carried| && item !in s.carried[..i]
      {
        i := i + 1;
      }
      FirstIndexIsUnique(s.carried, item, i);
      dropped := i < |s.carried|;
      if dropped {
        s := s.(carried := Removed(s.carried, i));
        if s.carried == [] {
          s := s.(state := Idle);
        }
        EmitEvent(ItemDropped(item));
      }
    }

    method ChangeEquipment(next: Option<Equipment>)
      modifies this`s
      ensures s == Equipped(def, old(s), next)
    {
      if s.equipped == Some(Rucksack) && next != Some(Rucksack) {
        if |s.carried| > def.t.baseCapacity {
          s := s.(carried := s.carried[..def.t.baseCapacity]);
        }
      }
      s := s.(equipped := next);
    }

    method DoLaunchGlider(height: real) returns (launched: bool)
      modifies this`s
      ensures s == Applied(def, old(s), LaunchGlider(height)) && launched == CanGlide(def, old(s))
    {
      launched := s.alive && s.equipped == Some(Glider) && s.depth < def.t.surfaceThreshold;
      if launched {
        s := s.(state := Gliding, glideHeight := height);
        s := s.(glideDistance := height * def.t.gliderHeightMultiplier, glideProgress := 0.0);
        EmitEvent(GlideStarted(height));
      }
    }

    method Die(how: MoleState)
      modifies this`s
      ensures s == if old(s.alive) then old(s).(state := how, alive := false) else old(s)
    {
      if s.alive {
        s := s.(state := how);
        s := s.(alive := false);
      }
    }

    method DoFeed()
      modifies this`s
      ensures s == Applied(def, old(s), Feed)
    {
      s := s.(hunger := 0.0, fightTimer := 0.0);
      s := s.(resisting := false, hungerTargetX := None);
      EmitEvent(FoodEaten);
    }

    method Apply(c: Command)
      modifies this`s
      ensures s == Applied(def, old(s), c)
    {
      match c
      case MoveTo(target, underground) => OrderMoveTo(target, underground);
      case DigTrap =>
        if CanDig(def, s) {
          s := s.(state := DiggingTrap, actionTimer := def.t.trapDigDuration);
        }
      case SabotageCable =>
        if CanDig(def, s) {
          s := s.(state := SabotagingCable, actionTimer := def.t.cableSabotageDuration);
        }
      case GiveItem(item) => var taken := DoGiveItem(item);
      case DropItem(item) => var dropped := DoDropItem(item);
      case Deliver(x) =>
        if s.alive && s.carried != [] {
          s := s.(targetX := Some(x));
        }
      case Equip(equipment) => ChangeEquipment(Some(equipment));
      case Unequip => ChangeEquipment(None);
      case UseFlash =>
        if s.alive && s.equipped == Some(FlashCamera) {
          EmitEvent(FlashFired);
        }
      case LaunchGlider(height) => var launched := DoLaunchGlider(height);
      case PlaySynthSound(index) =>
        if CanPlay(def, s, index) {
          EmitEvent(SynthSoundPlayed(def.sounds[index]));
        }
      case DistractByWire(x) =>
        if CanDistract(def, s, x) {
          s := s.(state := Distracted, distractionTimer := def.t.distractionDuration, distractionX := Some(x));
        }
      case Crush => Die(Crushed);
      case CatchByDog => Die(CaughtByDog);
      case Feed => DoFeed();
      case SetHungerTarget(x) => s := s.(hungerTargetX := Some(x));
      case UpgradeCoprocessor(slot) => s := s.(bay := Upgraded(s.bay, slot));
    }

    method MoveDepth(dt: real)
      modifies this`s
      ensures s == Deepened(def, old(s), dt)
    {
      hide Sign, Abs;
      if s.targetDepth.Some? {
        var diff := s.targetDepth.value - s.depth;
        if Abs(diff) < def.t.depthEpsilon {
          s := s.(depth := s.targetDepth.value, targetDepth := None);
        } else {
          s := s.(depth := s.depth + Sign(diff) * def.t.depthSpeed * dt);
        }
      }
    }

    method UpdateMovement(dt: real) returns (event: Option<MoleEvent>)
      modifies this`s, this`draws
      ensures Step(s, draws, event) == MovementStep(def, old(s), old(draws), dt)
    {
      hide Arrived, Strode, Deepened, Abs;
      event := None;
      MoveDepth(dt);
      if s.targetX.None? {
        return;
      }
      var dx := s.targetX.value - s.x;
      if Abs(dx) < def.t.arriveDistance {
        event := Arrive(s.targetX.value);
      } else {
        Stride(dx, dt);
      }
    }

    method CurrentSpeed() returns (speed: real)
      ensures speed == Speed(def, s)
    {
      speed := 0.0;
      match s.state
      case MovingUnderground =>
        speed := def.t.undergroundSpeed * def.pathEfficiency(s.bay.path);
      case MovingAboveGround =>
        speed := def.t.aboveGroundSpeed;
        if s.equipped == Some(Skateboard) {
          speed := def.t.skateboardSpeed;
        }
      case CarryingItem =>
        speed := def.t.aboveGroundSpeed;
        if s.depth > def.t.surfaceThreshold {
          speed := def.t.undergroundSpeed * def.t.carryingMultiplier * def.pathEfficiency(s.bay.path);
        }
      case _ =>
    }

    method Stride(dx: real, dt: real)
      modifies this`s
      ensures s == Strode(def, old(s), dx, dt)
    {
      hide Speed;
      var speed := CurrentSpeed();
      var direction := if dx > 0.0 then 1.0 else -1.0;
      s := s.(x := s.x + direction * speed * dt);
      s := s.(facing := if dx > 0.0 then Right else Left);
    }

    method Arrive(target: real) returns (event: Option<MoleEvent>)
      modifies this`s, this`draws
      ensures Step(s, draws, event) == Arrived(def, old(s), old(draws), target)
    {
      s := s.(x := target, targetX := None);
      if s.state == CarryingItem && s.carried != [] {
        var item := s.carried[0];
        s := s.(carried := s.carried[1..]);
        var roll := def.random(draws);
        draws := draws + 1;
        if s.carried == [] {
          s := s.(state := Idle);
        }
        var eaten := roll < def.t.itemEatChance * def.eatChanceMultiplier(s.bay.stabilisation);
        event := Some(if eaten then ItemEaten(item) else ItemDelivered(item));
      } else {
        s := s.(state := Idle);
        event := Some(ReachedDestination);
      }
    }

    method UpdateState(dt: real) returns (event: Option<MoleEvent>)
      modifies this`s, this`draws
      ensures Step(s, draws, event) == StateStep(def, old(s), old(draws), dt)
    {
      event := None;
      if !s.alive {
        return;
      }
      if s.state == MovingUnderground || s.state == MovingAboveGround || s.state == CarryingItem {
        event := UpdateMovement(dt);
      } else {
        event := UpdateAction(dt);
      }
    }

    /** The states that do not walk. */
    method UpdateAction(dt: real) returns (event: Option<MoleEvent>)
      requires s.alive && s.state != MovingUnderground && s.state != MovingAboveGround && s.state != CarryingItem
      modifies this`s
      ensures Step(s, draws, event) == StateStep(def, old(s), old(draws), dt)
    {
      event := None;
      match s.state
      case DiggingTrap =>
        s := s.(actionTimer := s.actionTimer - dt);
        if s.actionTimer <= 0.0 {
          s := s.(state := Idle);
          event := Some(TrapTriggered(s.x, s.y));
        }
      case SabotagingCable =>
        s := s.(actionTimer := s.actionTimer - dt);
        if s.actionTimer <= 0.0 {
          s := s.(state := Idle);
          event := Some(CableSabotaged(def.cableName(s.x)));
        }
      case Distracted => BeDistracted(dt);
      case Gliding =>
        Glide(dt);
        if s.glideProgress >= 1.0 {
          s := s.(state := Idle, depth := 0.0);
          event := Some(GlideComplete(s.x));
        }
      case Crushed =>
        s := s.(alive := false, state := Dead);
        event := Some(MoleDied(Dead));
      case CaughtByDog =>
        s := s.(alive := false, state := Dead);
        event := Some(MoleDied(Dead));
      case _ =>
    }

    method BeDistracted(dt: real)
      modifies this`s
      ensures s == DistractedStep(def, old(s), dt)
    {
      s := s.(distractionTimer := s.distractionTimer - dt);
      if s.distractionX.Some? {
        var dx := s.distractionX.value - s.x;
        var direction := if dx > 0.0 then 1.0 else -1.0;
        s := s.(x := s.x + direction * def.t.aboveGroundSpeed * dt);
        s := s.(facing := if dx > 0.0 then Right else Left);
      }
      if s.distractionTimer <= 0.0 {
        s := s.(state := Idle);
        s := s.(distractionX := None);
      }
    }

    method Glide(dt: real)
      modifies this`s
      ensures s == Glided(def, old(s), dt)
    {
      var speed := s.glideDistance / 2.0 * def.t.gliderFallSpeed / 60.0;
      var direction := match s.facing case Right => 1.0 case Left => -1.0;
      s := s.(x := s.x + direction * speed * dt);
      s := s.(glideProgress := s.glideProgress + dt * def.t.glideRate);
    }

    method UpdateScans(dt: real)
      modifies this`s
      ensures s == Scanned(def, old(s), dt)
    {
      if s.alive && s.depth > def.t.surfaceThreshold {
        s := s.(scanTimer := s.scanTimer - dt);
        if s.scanTimer <= 0.0 {
          s := s.(scanTimer := def.t.scanInterval);
          if s.state == MovingUnderground || s.state == DiggingTrap {
            var objects := def.sensorRange(s.bay.signal);
            if objects > 0 {
              EmitEvent(UndergroundScanComplete(objects));
            }
          }
          var reading := def.vibrationQuality(s.bay.vibration);
          if reading != NoData {
            EmitEvent(VibrationDetected(reading));
          }
        }
      }
    }

    /** Where the first edible of that id lies. */
    method Locate(edibles: seq<Edible>, id: string) returns (x: Option<real>)
      ensures x == FindEdible(edibles, id)
    {
      var i := 0;
      assert edibles[i..] == edibles;
      while i < |edibles| && edibles[i].id != id
        invariant i <= |edibles| && FindEdible(edibles, id) == FindEdible(edibles[i..], id)
      {
        assert edibles[i..][1..] == edibles[i + 1..];
        i := i + 1;
      }
      x := if i < |edibles| then Some(edibles[i].x) else None;
    }

    method HungerIncrease() returns (increase: real)
      ensures increase == HungerRate(def, s)
    {
      var moving := s.state == MovingUnderground || s.state == MovingAboveGround || s.state == CarryingItem;
      increase := def.t.hungerRate * (if moving then 1.5 else 0.5) * (1.0 + s.hunger * 0.5)
                  * def.eatChanceMultiplier(s.bay.stabilisation) * s.levelMultiplier;
    }

    method GrowHungry(dt: real, edibles: seq<Edible>) returns (field: Field)
      modifies this`s
      ensures s == Hungrier(def, old(s), dt, edibles)
      ensures field == def.totalPull(old(s).x, old(s).y, s.hunger, edibles)
    {
      hide HungerRate;
      var increase := HungerIncrease();
      var grown := s.hunger + increase * dt;
      s := s.(hunger := if grown < 1.0 then grown else 1.0);
      field := def.totalPull(s.x, s.y, s.hunger, edibles);
      var nearest := None;
      if field.nearest.Some? {
        nearest := Locate(edibles, field.nearest.value);
      }
      s := s.(hungerTargetX := nearest);
    }

    method Resist(dt: real)
      modifies this`s
      ensures s == Resisted(def, old(s), dt)
    {
      s := s.(fightTimer := s.fightTimer + dt);
      if s.fightTimer > def.t.fightInterval {
        s := s.(resisting := true);
        if s.fightTimer > def.t.fightInterval + def.t.fightDuration {
          s := s.(fightTimer := 0.0);
          s := s.(resisting := false);
        }
      } else {
        s := s.(resisting := false);
      }
    }

    method BePulled(dt: real, pull: real)
      modifies this`s
      ensures s == Pulled(def, old(s), dt, pull)
    {
      if s.resisting {
        s := s.(x := s.x + pull * dt);
        if pull != 0.0 {
          s := s.(facing := if pull > 0.0 then Right else Left);
        }
      } else {
        s := s.(x := s.x + pull * def.t.dragMultiplier * dt);
      }
    }

    method Wander(dt: real)
      modifies this`s, this`draws
      ensures s == Wandered(def, old(s), old(draws), dt) && draws == old(draws) + 1
    {
      var roll := def.random(draws);
      draws := draws + 1;
      var direction := if roll > 0.5 then 1.0 else -1.0;
      s := s.(x := s.x + direction * def.t.aboveGroundSpeed * def.t.wanderMultiplier * dt);
    }

    method UpdateHunger(dt: real, edibles: seq<Edible>)
      modifies this`s, this`draws
      ensures Step(s, draws, None) == Hungered(def, old(s), old(draws), dt, edibles)
    {
      if s.alive {
        var was := s.resisting;
        var field := GrowHungry(dt, edibles);
        if s.hunger > def.t.hungryThreshold {
          Resist(dt);
          BePulled(dt, field.pull);
          if s.hunger > def.t.starvingThreshold && field.dist > def.t.wanderMinDistance {
            Wander(dt);
          }
        } else {
          s := s.(resisting := false);
        }
        if !was && s.resisting {
          EmitEvent(HungerResistanceStarted);
        } else if was && !s.resisting {
          EmitEvent(HungerResistanceEnded);
        }
      }
    }

    method Walk(dt: real)
      modifies this`s, this`draws
      ensures Step(s, draws, None) == Walked(def, old(s), old(draws), dt)
    {
      var event := UpdateState(dt);
      if event.Some? {
        EmitEvent(event.value);
      }
      if s.dodgeTimer > 0.0 {
        s := s.(dodgeTimer := s.dodgeTimer - dt);
      }
    }

    method Sense(dt: real, edibles: seq<Edible>)
      modifies this`s, this`draws
      ensures Step(s, draws, None) == Sensed(def, old(s), old(draws), dt, edibles)
    {
      UpdateScans(dt);
      UpdateHunger(dt, edibles);
    }

    method Tick(dt: real, edibles: seq<Edible>) returns (events: seq<MoleEvent>)
      modifies this
      ensures var step := Stirred(def, old(s), old(draws), dt, edibles);
              s == step.m.(pending := []) && draws == step.draws && events == step.m.pending
      ensures ticks == old(ticks) + 1
    {
      ticks := ticks + 1;
      Walk(dt);
      Sense(dt, edibles);
      events := DrainEvents();
    }
  }

  lemma {:induction false} FirstIndexIsUnique(items: seq<string>, item: string, i: nat)
    requires i <= |items| && item !in items[..i] && (i < |items| ==> items[i] == item)
    ensures IndexOf(items, item) == i && (i < |items| <==> item in items)
  {
    var j := IndexOf(items, item);
    if i == |items| {
      assert items[..i] == items;
    }
  }
}
