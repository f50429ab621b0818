/** What holds over every run of the mole: nothing it picks up is lost track of, and death is for good. */
module MoletaireTheorems {
  import opened Wrappers
  import opened Moletaire

  /// Runs

  datatype Input = Order(c: Command) | Tick(dt: real, edibles: seq<Edible>) | Drain

  /** A run so far: the mole, the random draws taken, every event handed out, what the rucksack shed, and the
      number of aimless wanders. */
  datatype Run = Run(m: Mole, draws: nat, log: seq<MoleEvent>, shed: multiset<string>, wanders: nat)

  function Start(x: real, y: real, equipped: Option<Equipment>, levelMultiplier: real): Run {
    Run(Newborn(x, y, equipped, levelMultiplier), 0, [], multiset{}, 0)
  }

  /** What a command makes the mole leave behind without a word. */
  function Shed(def: Definition, m: Mole, c: Command): seq<string> {
    match c
    case Equip(equipment) => m.carried[|Kept(def, m, Some(equipment))|..]
    case Unequip => m.carried[|Kept(def, m, None)|..]
    case _ => []
  }

  function Next(def: Definition, r: Run, i: Input): Run {
    match i
    case Order(c) => r.(m := Applied(def, r.m, c), shed := r.shed + multiset(Shed(def, r.m, c)))
    case Drain => r.(m := r.m.(pending := []), log := r.log + r.m.pending)
    case Tick(dt, edibles) =>
      var walked := Walked(def, r.m, r.draws, dt);
      var stirred := Stirred(def, r.m, r.draws, dt, edibles);
      Run(stirred.m.(pending := []), stirred.draws, r.log + stirred.m.pending, r.shed,
          r.wanders + if Roams(def, walked.m, dt, edibles) then 1 else 0)
  }

  /** The mole is starving this tick with no edible near enough to go for. */
  predicate Roams(def: Definition, m: Mole, dt: real, edibles: seq<Edible>) {
    var hungry := Hungrier(def, m, dt, edibles);
    && m.alive && hungry.hunger > def.t.hungryThreshold && hungry.hunger > def.t.starvingThreshold
    && def.totalPull(m.x, m.y, hungry.hunger, edibles).dist > def.t.wanderMinDistance
  }

  function After(def: Definition, r: Run, inputs: seq<Input>): Run {
    if inputs == [] then r else Next(def, After(def, r, inputs[..|inputs| - 1]), inputs[|inputs| - 1])
  }

  /** Every event of a run, drained or waiting. */
  function Events(r: Run): seq<MoleEvent> {
    r.log + r.m.pending
  }

  /// The ledger of items

  datatype Fate = PickedUp | Delivered | Eaten | PutDown

  function FateOf(e: MoleEvent): Option<(Fate, string)> {
    match e
    case ItemPickedUp(item) => Some((PickedUp, item))
    case ItemDelivered(item) => Some((Delivered, item))
    case ItemEaten(item) => Some((Eaten, item))
    case ItemDropped(item) => Some((PutDown, item))
    case _ => None
  }

  /** The items events say met that fate. */
  function Tally(f: Fate, events: seq<MoleEvent>): multiset<string> {
    if events == [] then multiset{}
    else
      Tally(f, events[..|events| - 1]) + Added(f, events[|events| - 1])
  }

  /** Everything picked up is carried, delivered, eaten, dropped or shed. */
  ghost predicate Balanced(carried: seq<string>, events: seq<MoleEvent>, shed: multiset<string>) {
    Tally(PickedUp, events) ==
    multiset(carried) + Tally(Delivered, events) + Tally(Eaten, events) + Tally(PutDown, events) + shed
  }

  /** One more event adds its item, if it has one, to the tally of its own fate. */
  function Added(f: Fate, e: MoleEvent): multiset<string> {
    if FateOf(e).Some? && FateOf(e).value.0 == f then multiset{FateOf(e).value.1} else multiset{}
  }

  lemma TallyPush(f: Fate, events: seq<MoleEvent>, e: MoleEvent)
    ensures Tally(f, events + [e]) == Tally(f, events) + Added(f, e)
  {
    assert (events + [e])[..|events|] == events;
  }

  lemma TalliesPush(events: seq<MoleEvent>, e: MoleEvent)
    ensures Tally(PickedUp, events + [e]) == Tally(PickedUp, events) + Added(PickedUp, e)
    ensures Tally(Delivered, events + [e]) == Tally(Delivered, events) + Added(Delivered, e)
    ensures Tally(Eaten, events + [e]) == Tally(Eaten, events) + Added(Eaten, e)
    ensures Tally(PutDown, events + [e]) == Tally(PutDown, events) + Added(PutDown, e)
  {
    hide Tally, Added;
    TallyPush(PickedUp, events, e);
    TallyPush(Delivered, events, e);
    TallyPush(Eaten, events, e);
    TallyPush(PutDown, events, e);
  }

  /** An event about no item leaves the ledger alone. */
  lemma QuietEvent(carried: seq<string>, events: seq<MoleEvent>, shed: multiset<string>, e: MoleEvent)
    requires Balanced(carried, events, shed) && FateOf(e).None?
    ensures Balanced(carried, events + [e], shed)
  {
    hide Tally, FateOf;
    TalliesPush(events, e);
  }

  lemma TakesOne(carried: seq<string>, events: seq<MoleEvent>, shed: multiset<string>, item: string)
    requires Balanced(carried, events, shed)
    ensures Balanced(carried + [item], events + [ItemPickedUp(item)], shed)
  {
    hide Tally;
    TalliesPush(events, ItemPickedUp(item));
  }

  lemma RemovingOne(carried: seq<string>, i: nat)
    requires i < |carried|
    ensures multiset(carried) == multiset(Removed(carried, i)) + multiset{carried[i]}
  {
    assert carried == carried[..i] + [carried[i]] + carried[i + 1..];
  }

  lemma PartsWithOne(carried: seq<string>, i: nat, events: seq<MoleEvent>, shed: multiset<string>, e: MoleEvent)
    requires Balanced(carried, events, shed) && i < |carried|
    requires FateOf(e).Some? && FateOf(e).value.0 != PickedUp && FateOf(e).value.1 == carried[i]
    ensures Balanced(Removed(carried, i), events + [e], shed)
  {
    hide Tally, FateOf, Removed;
    TalliesPush(events, e);
    RemovingOne(carried, i);
  }

  lemma ShedsTheRest(carried: seq<string>, n: nat, events: seq<MoleEvent>, shed: multiset<string>)
    requires Balanced(carried, events, shed) && n <= |carried|
    ensures Balanced(carried[..n], events, shed + multiset(carried[n..]))
  {
    assert carried == carried[..n] + carried[n..];
  }

  /// One command

  /** The mole's load is within capacity, and only a loaded mole is in the carrying state. */
  predicate LoadOk(def: Definition, m: Mole) {
    |m.carried| <= Capacity(def, m) && (m.state == CarryingItem ==> m.carried != [])
  }

  /** The fatal states are only ever seen on a dead mole, and the terminal one never. */
  predicate FateOk(m: Mole) {
    m.state != Dead && (m.state == Crushed || m.state == CaughtByDog ==> !m.alive)
  }

  lemma CommandKeepsLoad(def: Definition, m: Mole, c: Command)
    requires ValidDefinition(def) && LoadOk(def, m)
    ensures LoadOk(def, Applied(def, m, c))
  {
  }

  lemma CommandKeepsFate(def: Definition, m: Mole, c: Command)
    requires FateOk(m)
    ensures FateOk(Applied(def, m, c))
    ensures !m.alive ==> !Applied(def, m, c).alive
  {
  }

  /** A command that touches no item: the load is the same and at most one unrelated event is queued. */
  predicate Quiet(m: Mole, t: Mole) {
    && t.carried == m.carried
    && (t.pending == m.pending
        || (|t.pending| == |m.pending| + 1 && t.pending[..|m.pending|] == m.pending
            && FateOf(t.pending[|m.pending|]).None? && !t.pending[|m.pending|].MoleDied?))
  }

  lemma OtherCommandsAreQuiet(def: Definition, m: Mole, c: Command)
    requires !c.GiveItem? && !c.DropItem? && !c.Equip? && !c.Unequip?
    ensures Quiet(m, Applied(def, m, c))
  {
  }

  lemma QuietKeepsBooks(r: Run, t: Mole)
    requires Balanced(r.m.carried, Events(r), r.shed) && Quiet(r.m, t)
    ensures Balanced(t.carried, r.log + t.pending, r.shed)
  {
    hide Balanced, FateOf;
    if t.pending != r.m.pending {
      var e := t.pending[|r.m.pending|];
      QuietEvent(r.m.carried, Events(r), r.shed, e);
      assert r.log + t.pending == Events(r) + [e];
    }
  }

  lemma GivingKeepsBooks(def: Definition, r: Run, item: string)
    requires Balanced(r.m.carried, Events(r), r.shed)
    ensures var t := Given(def, r.m, item); Balanced(t.carried, r.log + t.pending, r.shed)
  {
    hide Balanced;
    if CanTake(def, r.m) {
      TakesOne(r.m.carried, Events(r), r.shed, item);
      assert r.log + (r.m.pending + [ItemPickedUp(item)]) == Events(r) + [ItemPickedUp(item)];
    }
  }

  lemma DroppingKeepsBooks(r: Run, item: string)
    requires Balanced(r.m.carried, Events(r), r.shed)
    ensures var t := Dropped(r.m, item); Balanced(t.carried, r.log + t.pending, r.shed)
  {
    hide Balanced, IndexOf, Removed;
    var i := IndexOf(r.m.carried, item);
    if i < |r.m.carried| {
      PartsWithOne(r.m.carried, i, Events(r), r.shed, ItemDropped(item));
      assert r.log + (r.m.pending + [ItemDropped(item)]) == Events(r) + [ItemDropped(item)];
    }
  }

  lemma ReequippingKeepsBooks(def: Definition, r: Run, next: Option<Equipment>)
    requires Balanced(r.m.carried, Events(r), r.shed)
    ensures var t := Equipped(def, r.m, next);
            Balanced(t.carried, r.log + t.pending, r.shed + multiset(r.m.carried[|Kept(def, r.m, next)|..]))
  {
    hide Balanced;
    assert Kept(def, r.m, next) == r.m.carried[..|Kept(def, r.m, next)|];
    ShedsTheRest(r.m.carried, |Kept(def, r.m, next)|, Events(r), r.shed);
  }

  lemma NothingShed(shed: multiset<string>)
    ensures shed + multiset([]) == shed
  {
  }

  lemma CommandKeepsBooks(def: Definition, r: Run, c: Command)
    requires Balanced(r.m.carried, Events(r), r.shed)
    ensures var t := Applied(def, r.m, c); Balanced(t.carried, r.log + t.pending, r.shed + multiset(Shed(def, r.m, c)))
  {
    hide Balanced, Quiet;
    NothingShed(r.shed);
    match c
    case GiveItem(item) => GivingKeepsBooks(def, r, item);
    case DropItem(item) => DroppingKeepsBooks(r, item);
    case Equip(equipment) => ReequippingKeepsBooks(def, r, Some(equipment));
    case Unequip => ReequippingKeepsBooks(def, r, None);
    case _ =>
      OtherCommandsAreQuiet(def, r.m, c);
      QuietKeepsBooks(r, Applied(def, r.m, c));
  }

  /// One tick

  /** What the state machine may do to the load: nothing, or hand over the first item and say so. */
  predicate HandsOver(m: Mole, step: Step) {
    && m.carried != [] && step.m.carried == m.carried[1..] && step.event.Some?
    && (step.event.value == ItemDelivered(m.carried[0]) || step.event.value == ItemEaten(m.carried[0]))
  }

  predicate LeavesLoad(m: Mole, step: Step) {
    step.m.carried == m.carried && (step.event.Some? ==> FateOf(step.event.value).None? && !step.event.value.MoleDied?)
  }

  /** Whether a state step hands an item over or not, it touches nothing else of the mole's load. */
  predicate LoadStep(m: Mole, draws: nat, step: Step) {
    && step.m.pending == m.pending && step.m.equipped == m.equipped && step.m.alive == m.alive
    && (if HandsOver(m, step) then step.draws == draws + 1 else LeavesLoad(m, step) && step.draws == draws)
  }

  predicate SameLoad(m: Mole, t: Mole) {
    t.carried == m.carried && t.pending == m.pending && t.equipped == m.equipped && t.alive == m.alive
  }

  lemma MotionOnLoad(def: Definition, m: Mole, dt: real)
    ensures SameLoad(m, Deepened(def, m, dt)) && Deepened(def, m, dt).state == m.state
    ensures SameLoad(m, Glided(def, m, dt)) && Glided(def, m, dt).state == m.state
  {
  }

  lemma DistractionOnLoad(def: Definition, m: Mole, dt: real)
    ensures var t := DistractedStep(def, m, dt); SameLoad(m, t) && (t.state == m.state || t.state == Idle)
  {
  }

  lemma ArrivalOnLoad(def: Definition, m: Mole, draws: nat, target: real)
    ensures LoadStep(m, draws, Arrived(def, m, draws, target))
    ensures FateOk(m) ==> FateOk(Arrived(def, m, draws, target).m)
    ensures LoadOk(def, m) ==> LoadOk(def, Arrived(def, m, draws, target).m)
  {
  }

  lemma MovementOnLoad(def: Definition, m: Mole, draws: nat, dt: real)
    ensures LoadStep(m, draws, MovementStep(def, m, draws, dt))
    ensures FateOk(m) ==> FateOk(MovementStep(def, m, draws, dt).m)
    ensures LoadOk(def, m) ==> LoadOk(def, MovementStep(def, m, draws, dt).m)
  {
    hide Deepened, Arrived, Speed, Abs, Sign;
    MotionOnLoad(def, m, dt);
    var deepened := Deepened(def, m, dt);
    if deepened.targetX.Some? {
      ArrivalOnLoad(def, deepened, draws, deepened.targetX.value);
    }
  }

  lemma StateStepOnLoad(def: Definition, m: Mole, draws: nat, dt: real)
    requires FateOk(m)
    ensures LoadStep(m, draws, StateStep(def, m, draws, dt))
    ensures FateOk(StateStep(def, m, draws, dt).m)
    ensures LoadOk(def, m) ==> LoadOk(def, StateStep(def, m, draws, dt).m)
  {
    hide MovementStep, DistractedStep, Glided;
    MovementOnLoad(def, m, draws, dt);
    MotionOnLoad(def, m, dt);
    DistractionOnLoad(def, m, dt);
  }

  /** Everything a tick does after its state machine: only position, hunger, timers and unrelated events. */
  predicate Surroundings(m: Mole, t: Mole) {
    && t.carried == m.carried && t.equipped == m.equipped && t.state == m.state && t.alive == m.alive
    && |m.pending| <= |t.pending| && t.pending[..|m.pending|] == m.pending
    && forall i :: |m.pending| <= i < |t.pending| ==> FateOf(t.pending[i]).None? && !t.pending[i].MoleDied?
  }

  lemma ScanIsSurroundings(def: Definition, m: Mole, dt: real)
    ensures Surroundings(m, Scanned(def, m, dt))
    ensures var t := Scanned(def, m, dt); t == m.(scanTimer := t.scanTimer, pending := t.pending)
  {
  }

  predicate SameBusiness(m: Mole, t: Mole) {
    t.carried == m.carried && t.equipped == m.equipped && t.state == m.state
    && t.alive == m.alive && t.pending == m.pending
  }

  lemma DrivingIsPersonal(def: Definition, m: Mole, draws: nat, dt: real, field: Field)
    ensures var step := Driven(def, m, draws, dt, field);
            SameBusiness(m, step.m)
            && step.draws == draws + if m.hunger > def.t.hungryThreshold && Wanders(def, m, field.dist) then 1 else 0
  {
  }

  lemma HungerIsSurroundings(def: Definition, m: Mole, draws: nat, dt: real, edibles: seq<Edible>)
    ensures var step := Hungered(def, m, draws, dt, edibles);
            Surroundings(m, step.m) && step.draws == draws + if Roams(def, m, dt, edibles) then 1 else 0
  {
    if m.alive {
      var hungry := Hungrier(def, m, dt, edibles);
      DrivingIsPersonal(def, hungry, draws, dt, def.totalPull(m.x, m.y, hungry.hunger, edibles));
    }
  }

  lemma SurroundingsChain(a: Mole, b: Mole, c: Mole)
    requires Surroundings(a, b) && Surroundings(b, c)
    ensures Surroundings(a, c)
  {
    assert forall i :: 0 <= i < |b.pending| ==> c.pending[..|b.pending|][i] == c.pending[i];
    assert c.pending[..|a.pending|] == b.pending[..|a.pending|];
  }

  lemma RoamsUnscanned(def: Definition, m: Mole, t: Mole, dt: real, edibles: seq<Edible>)
    requires t == m.(scanTimer := t.scanTimer, pending := t.pending)
    ensures Roams(def, t, dt, edibles) == Roams(def, m, dt, edibles)
  {
    assert HungerRate(def, t) == HungerRate(def, m);
    hide HungerRate;
    assert Hungrier(def, t, dt, edibles).hunger == Hungrier(def, m, dt, edibles).hunger;
  }

  lemma SensingIsSurroundings(def: Definition, m: Mole, draws: nat, dt: real, edibles: seq<Edible>)
    ensures var step := Sensed(def, m, draws, dt, edibles);
            Surroundings(m, step.m) && step.draws == draws + if Roams(def, m, dt, edibles) then 1 else 0
  {
    hide Scanned, Hungered, Roams, Surroundings;
    ScanIsSurroundings(def, m, dt);
    RoamsUnscanned(def, m, Scanned(def, m, dt), dt, edibles);
    HungerIsSurroundings(def, Scanned(def, m, dt), draws, dt, edibles);
    SurroundingsChain(m, Scanned(def, m, dt), Sensed(def, m, draws, dt, edibles).m);
  }

  lemma {:induction false} SurroundingsKeepBooks(log: seq<MoleEvent>, m: Mole, t: Mole, shed: multiset<string>)
    requires Surroundings(m, t) && Balanced(m.carried, log + m.pending, shed)
    ensures Balanced(t.carried, log + t.pending, shed)
    decreases |t.pending|
  {
    hide Balanced, FateOf;
    if |t.pending| == |m.pending| {
      assert t.pending[..|m.pending|] == t.pending;
    } else {
      var front, e := t.pending[..|t.pending| - 1], t.pending[|t.pending| - 1];
      assert front[..|m.pending|] == t.pending[..|m.pending|];
      SurroundingsKeepBooks(log, m, t.(pending := front), shed);
      QuietEvent(t.carried, log + front, shed, e);
      assert log + t.pending == log + front + [e];
    }
  }

  lemma RemovingFirst(carried: seq<string>)
    requires carried != []
    ensures Removed(carried, 0) == carried[1..]
  {
  }

  lemma WalkKeepsBooks(def: Definition, r: Run, dt: real)
    requires FateOk(r.m) && Balanced(r.m.carried, Events(r), r.shed)
    ensures var t := Walked(def, r.m, r.draws, dt).m; Balanced(t.carried, r.log + t.pending, r.shed)
  {
    hide StateStep, Balanced, Removed;
    var step := StateStep(def, r.m, r.draws, dt);
    StateStepOnLoad(def, r.m, r.draws, dt);
    if step.event.Some? {
      assert r.log + (r.m.pending + [step.event.value]) == Events(r) + [step.event.value];
      if HandsOver(r.m, step) {
        PartsWithOne(r.m.carried, 0, Events(r), r.shed, step.event.value);
        RemovingFirst(r.m.carried);
      } else {
        QuietEvent(r.m.carried, Events(r), r.shed, step.event.value);
      }
    }
  }

  lemma TickKeepsBooks(def: Definition, r: Run, dt: real, edibles: seq<Edible>)
    requires FateOk(r.m) && Balanced(r.m.carried, Events(r), r.shed)
    ensures var t := Next(def, r, Tick(dt, edibles)); Balanced(t.m.carried, Events(t), t.shed)
  {
    hide Walked, Sensed, Surroundings, Balanced;
    var walked := Walked(def, r.m, r.draws, dt);
    WalkKeepsBooks(def, r, dt);
    SensingIsSurroundings(def, walked.m, walked.draws, dt, edibles);
    SurroundingsKeepBooks(r.log, walked.m, Stirred(def, r.m, r.draws, dt, edibles).m, r.shed);
    assert Events(Next(def, r, Tick(dt, edibles))) == r.log + Stirred(def, r.m, r.draws, dt, edibles).m.pending;
  }

  lemma TickKeepsLoad(def: Definition, r: Run, dt: real, edibles: seq<Edible>)
    requires FateOk(r.m) && LoadOk(def, r.m)
    ensures var t := Next(def, r, Tick(dt, edibles)); FateOk(t.m) && LoadOk(def, t.m) && t.m.alive == r.m.alive
  {
    var walked := Walked(def, r.m, r.draws, dt);
    hide StateStep, Sensed, HandsOver;
    StateStepOnLoad(def, r.m, r.draws, dt);
    SensingIsSurroundings(def, walked.m, walked.draws, dt, edibles);
  }

  /// Whole runs

  ghost predicate RunOk(def: Definition, r: Run) {
    LoadOk(def, r.m) && FateOk(r.m) && Balanced(r.m.carried, Events(r), r.shed)
  }

  lemma InputKeeps(def: Definition, r: Run, i: Input)
    requires ValidDefinition(def) && RunOk(def, r)
    ensures RunOk(def, Next(def, r, i))
    ensures !r.m.alive ==> !Next(def, r, i).m.alive
  {
    match i
    case Order(c) =>
      CommandKeepsLoad(def, r.m, c);
      CommandKeepsFate(def, r.m, c);
      CommandKeepsBooks(def, r, c);
    case Tick(dt, edibles) =>
      TickKeepsLoad(def, r, dt, edibles);
      TickKeepsBooks(def, r, dt, edibles);
    case Drain =>
      assert Events(Next(def, r, i)) == Events(r);
  }

  /** Over every run the mole's books balance, its load fits, and the terminal state is never reached. */
  lemma {:induction false} ItemsAreConserved(def: Definition, x: real, y: real, equipped: Option<Equipment>,
                                             levelMultiplier: real, inputs: seq<Input>)
    requires ValidDefinition(def)
    ensures var r := After(def, Start(x, y, equipped, levelMultiplier), inputs);
            && Tally(PickedUp, Events(r)) == multiset(r.m.carried) + Tally(Delivered, Events(r))
                                             + Tally(Eaten, Events(r)) + Tally(PutDown, Events(r)) + r.shed
            && |r.m.carried| <= Capacity(def, r.m)
            && (r.m.state == CarryingItem ==> r.m.carried != [])
            && RunOk(def, r)
  {
    if inputs != [] {
      ItemsAreConserved(def, x, y, equipped, levelMultiplier, inputs[..|inputs| - 1]);
      InputKeeps(def, After(def, Start(x, y, equipped, levelMultiplier), inputs[..|inputs| - 1]), inputs[|inputs| - 1]);
    }
  }

  /// Death

  /** A tick moves nothing in a dead mole but its dodge timer, and draws nothing. */
  lemma TickFreezesTheDead(def: Definition, r: Run, dt: real, edibles: seq<Edible>)
    requires !r.m.alive
    ensures var t := Next(def, r, Tick(dt, edibles));
            t.m == r.m.(dodgeTimer := Dodged(r.m, dt).dodgeTimer, pending := []) && t.draws == r.draws
            && t.wanders == r.wanders && Events(t) == Events(r)
  {
  }

  /** All that can still differ in a mole that has died: what it wears and carries, its coprocessors, its
      hunger books, its state when it drops its last item, the dodge timer running out and the queue. Its
      place and heading, its orders, its timers and its glide are frozen. */
  predicate Frozen(m: Mole, d: Mole) {
    && d == m.(state := d.state, hunger := d.hunger, fightTimer := d.fightTimer, resisting := d.resisting,
               hungerTargetX := d.hungerTargetX, equipped := d.equipped, carried := d.carried, bay := d.bay,
               dodgeTimer := d.dodgeTimer, pending := d.pending)
    && multiset(d.carried) <= multiset(m.carried)
    && (d.hunger == m.hunger || d.hunger == 0.0)
    && (d.state == m.state || (d.state == Idle && d.carried == []))
  }

  /** Death is permanent: from a dead mole no inputs revive it, move it or take a random draw. */
  lemma {:induction false} DeathIsForGood(def: Definition, r: Run, inputs: seq<Input>)
    requires ValidDefinition(def) && RunOk(def, r) && !r.m.alive
    ensures var t := After(def, r, inputs);
            RunOk(def, t) && !t.m.alive && Frozen(r.m, t.m) && t.draws == r.draws && t.wanders == r.wanders
  {
    if inputs != [] {
      var s := After(def, r, inputs[..|inputs| - 1]);
      DeathIsForGood(def, r, inputs[..|inputs| - 1]);
      InputKeeps(def, s, inputs[|inputs| - 1]);
      DeadStep(def, s, inputs[|inputs| - 1]);
      FrozenStays(r.m, s.m, After(def, r, inputs).m);
    }
  }

  lemma FrozenStays(m: Mole, d: Mole, e: Mole)
    requires Frozen(m, d) && Frozen(d, e)
    ensures Frozen(m, e)
  {
    if d.carried == [] {
      assert |multiset(e.carried)| <= |multiset(d.carried)|;
    }
  }

  /** What an input can still change in a dead mole. */
  lemma DeadStep(def: Definition, r: Run, i: Input)
    requires !r.m.alive
    ensures var t := Next(def, r, i);
            && Frozen(r.m, t.m) && t.draws == r.draws && t.wanders == r.wanders
            && (t.m.hunger != r.m.hunger ==> i == Order(Feed))
            && (t.m.state != r.m.state ==> i.Order? && i.c.DropItem?)
  {
    if i.Tick? {
      TickFreezesTheDead(def, r, i.dt, i.edibles);
    } else if i.Order? {
      DeadOrder(def, r.m, i.c);
    }
  }

  lemma DeadOrder(def: Definition, m: Mole, c: Command)
    requires !m.alive
    ensures Frozen(m, Applied(def, m, c))
    ensures Applied(def, m, c).hunger != m.hunger ==> c == Feed
    ensures Applied(def, m, c).state != m.state ==> c.DropItem?
  {
    match c
    case DropItem(item) => RemovedIsLess(m.carried, IndexOf(m.carried, item));
    case Equip(_) => FrontIsLess(m.carried, def.t.baseCapacity);
    case Unequip => FrontIsLess(m.carried, def.t.baseCapacity);
    case _ =>
  }

  lemma RemovedIsLess(items: seq<string>, i: nat)
    ensures i < |items| ==> multiset(Removed(items, i)) <= multiset(items)
  {
    if i < |items| {
      assert items == items[..i] + [items[i]] + items[i + 1..];
    }
  }

  lemma FrontIsLess(items: seq<string>, n: nat)
    ensures n <= |items| ==> multiset(items[..n]) <= multiset(items)
  {
    if n <= |items| {
      assert items == items[..n] + items[n..];
    }
  }

  predicate AnyDeath(events: seq<MoleEvent>) {
    exists e :: e in events && e.MoleDied?
  }

  /** No run ever reports the death: both deaths clear `alive` before the state machine could. */
  lemma {:induction false} DeathIsNeverReported(def: Definition, x: real, y: real, equipped: Option<Equipment>,
                                                levelMultiplier: real, inputs: seq<Input>)
    requires ValidDefinition(def)
    ensures var r := After(def, Start(x, y, equipped, levelMultiplier), inputs);
            !AnyDeath(Events(r)) && r.m.state != Dead
  {
    if inputs != [] {
      var r := After(def, Start(x, y, equipped, levelMultiplier), inputs[..|inputs| - 1]);
      DeathIsNeverReported(def, x, y, equipped, levelMultiplier, inputs[..|inputs| - 1]);
      ItemsAreConserved(def, x, y, equipped, levelMultiplier, inputs[..|inputs| - 1]);
      InputKeeps(def, r, inputs[|inputs| - 1]);
      InputReportsNoDeath(def, r, inputs[|inputs| - 1]);
    }
  }

  lemma InputReportsNoDeath(def: Definition, r: Run, i: Input)
    requires FateOk(r.m) && !AnyDeath(Events(r))
    ensures !AnyDeath(Events(Next(def, r, i)))
  {
    match i
    case Order(c) =>
      var t := Applied(def, r.m, c);
      CommandQueues(def, r.m, c);
      NoDeathAdded(r.log, r.m.pending, t.pending);
    case Tick(dt, edibles) =>
      var walked := Walked(def, r.m, r.draws, dt).m;
      StateStepOnLoad(def, r.m, r.draws, dt);
      NoDeathAdded(r.log, r.m.pending, walked.pending);
      SensingIsSurroundings(def, walked, Walked(def, r.m, r.draws, dt).draws, dt, edibles);
      NoDeathAdded(r.log, walked.pending, Stirred(def, r.m, r.draws, dt, edibles).m.pending);
      assert Events(Next(def, r, i)) == r.log + Stirred(def, r.m, r.draws, dt, edibles).m.pending;
    case Drain =>
      assert Events(Next(def, r, i)) == Events(r);
  }

  lemma CommandQueues(def: Definition, m: Mole, c: Command)
    ensures var t := Applied(def, m, c);
            t.pending == m.pending || exists e: MoleEvent :: !e.MoleDied? && t.pending == m.pending + [e]
  {
  }

  lemma NoDeathAdded(log: seq<MoleEvent>, before: seq<MoleEvent>, after: seq<MoleEvent>)
    requires !AnyDeath(log + before)
    requires |before| <= |after| && after[..|before|] == before
    requires forall i :: |before| <= i < |after| ==> !after[i].MoleDied?
    ensures !AnyDeath(log + after)
  {
    forall e | e in log + after
      ensures !e.MoleDied?
    {
      if e !in log {
        var i :| 0 <= i < |after| && after[i] == e;
        if i < |before| {
          assert after[..|before|][i] == e;
        }
      }
      assert e in log + before || !e.MoleDied?;
    }
  }

  /// Delivery and the random stream

  /** A tick hands an item over exactly when a living, carrying mole stands within reach of its target. */
  lemma HandsOverIff(def: Definition, m: Mole, draws: nat, dt: real)
    requires FateOk(m) && LoadOk(def, m)
    ensures HandsOver(m, StateStep(def, m, draws, dt)) <==>
            m.alive && m.state == CarryingItem && m.targetX.Some? && Abs(m.targetX.value - m.x) < def.t.arriveDistance
  {
    if m.state == CarryingItem {
      assert m.carried != [];
    }
  }

  /** Every random draw is a delivery's eat roll or a wander's direction. */
  lemma {:induction false} DrawsAreAccountedFor(def: Definition, x: real, y: real, equipped: Option<Equipment>,
                                                levelMultiplier: real, inputs: seq<Input>)
    requires ValidDefinition(def)
    ensures var r := After(def, Start(x, y, equipped, levelMultiplier), inputs);
            r.draws == |Tally(Delivered, Events(r))| + |Tally(Eaten, Events(r))| + r.wanders
  {
    if inputs != [] {
      var r := After(def, Start(x, y, equipped, levelMultiplier), inputs[..|inputs| - 1]);
      DrawsAreAccountedFor(def, x, y, equipped, levelMultiplier, inputs[..|inputs| - 1]);
      ItemsAreConserved(def, x, y, equipped, levelMultiplier, inputs[..|inputs| - 1]);
      InputDraws(def, r, inputs[|inputs| - 1]);
    }
  }

  function Rolls(events: seq<MoleEvent>): nat {
    |Tally(Delivered, events)| + |Tally(Eaten, events)|
  }

  lemma RollsPush(events: seq<MoleEvent>, e: MoleEvent)
    ensures Rolls(events + [e]) == Rolls(events) + if e.ItemDelivered? || e.ItemEaten? then 1 else 0
  {
    hide Tally;
    TallyPush(Delivered, events, e);
    TallyPush(Eaten, events, e);
  }

  lemma {:induction false} SurroundingsRollNothing(log: seq<MoleEvent>, m: Mole, t: Mole)
    requires Surroundings(m, t)
    ensures Rolls(log + t.pending) == Rolls(log + m.pending)
    decreases |t.pending|
  {
    hide Rolls;
    if |t.pending| == |m.pending| {
      assert t.pending[..|m.pending|] == t.pending;
    } else {
      var front, e := t.pending[..|t.pending| - 1], t.pending[|t.pending| - 1];
      assert front[..|m.pending|] == t.pending[..|m.pending|];
      SurroundingsRollNothing(log, m, t.(pending := front));
      RollsPush(log + front, e);
      assert log + t.pending == log + front + [e];
    }
  }

  lemma WalkRolls(def: Definition, r: Run, dt: real)
    requires FateOk(r.m)
    ensures var t := Walked(def, r.m, r.draws, dt); t.draws - r.draws == Rolls(r.log + t.m.pending) - Rolls(Events(r))
  {
    hide StateStep, Rolls;
    var step := StateStep(def, r.m, r.draws, dt);
    StateStepOnLoad(def, r.m, r.draws, dt);
    if step.event.Some? {
      RollsPush(Events(r), step.event.value);
      assert r.log + (r.m.pending + [step.event.value]) == Events(r) + [step.event.value];
    }
  }

  lemma InputDraws(def: Definition, r: Run, i: Input)
    requires FateOk(r.m)
    ensures var t := Next(def, r, i);
            t.draws - t.wanders - Rolls(Events(t)) == r.draws - r.wanders - Rolls(Events(r))
  {
    match i
    case Order(c) => CommandRollsNothing(def, r, c);
    case Tick(dt, edibles) =>
      var walked := Walked(def, r.m, r.draws, dt);
      WalkRolls(def, r, dt);
      SensingIsSurroundings(def, walked.m, walked.draws, dt, edibles);
      SurroundingsRollNothing(r.log, walked.m, Stirred(def, r.m, r.draws, dt, edibles).m);
      assert Events(Next(def, r, i)) == r.log + Stirred(def, r.m, r.draws, dt, edibles).m.pending;
    case Drain =>
      assert Events(Next(def, r, i)) == Events(r);
  }

  lemma CommandRollsNothing(def: Definition, r: Run, c: Command)
    ensures Rolls(Events(Next(def, r, Order(c)))) == Rolls(Events(r))
  {
    hide Applied, Rolls;
    var t := Applied(def, r.m, c);
    if t.pending != r.m.pending {
      CommandQueuesNoRoll(def, r.m, c);
      var e: MoleEvent :| t.pending == r.m.pending + [e] && !e.ItemDelivered? && !e.ItemEaten?;
      RollsPush(Events(r), e);
      assert r.log + t.pending == Events(r) + [e];
    }
  }

  lemma CommandQueuesNoRoll(def: Definition, m: Mole, c: Command)
    ensures var t := Applied(def, m, c);
            t.pending == m.pending
            || exists e: MoleEvent :: t.pending == m.pending + [e] && !e.ItemDelivered? && !e.ItemEaten?
  {
  }
}
