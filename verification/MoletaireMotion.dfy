/** Where the mole goes: toward what it was ordered to, and there in bounded time. */
module MoletaireMotion {
  import opened Wrappers
  import opened Moletaire
  import opened MoletaireTheorems

  function Distance(a: real, b: real): (d: real)
    ensures d >= 0.0 && (d == 0.0 <==> a == b)
  {
    if a < b then b - a else a - b
  }

  /// One step

  /** A living mole on its way somewhere. */
  predicate Walking(m: Mole) {
    && m.alive && m.targetX.Some?
    && (m.state == MovingUnderground || m.state == MovingAboveGround || m.state == CarryingItem)
  }

  predicate Within(speed: real, dt: real, lo: real, hi: real) {
    lo <= speed * dt <= hi
  }

  /** However deep it is, a mole of that state and gear takes strides between `lo` and `hi` in a tick of `dt`. */
  predicate StridesWithin(t: Tuning, state: MoleState, gear: Option<Equipment>, efficiency: real, dt: real,
                          lo: real, hi: real)
  {
    && (state == MovingUnderground ==> Within(t.undergroundSpeed * efficiency, dt, lo, hi))
    && (state == MovingAboveGround ==>
          Within(if gear == Some(Skateboard) then t.skateboardSpeed else t.aboveGroundSpeed, dt, lo, hi))
    && (state == CarryingItem ==>
          && Within(t.undergroundSpeed * t.carryingMultiplier * efficiency, dt, lo, hi)
          && Within(t.aboveGroundSpeed, dt, lo, hi))
  }

  predicate Paced(def: Definition, m: Mole, dt: real, lo: real, hi: real) {
    StridesWithin(def.t, m.state, m.equipped, def.pathEfficiency(m.bay.path), dt, lo, hi)
  }

  /** Everything about a mole's errand but where it stands. */
  predicate SameErrand(m: Mole, t: Mole) {
    && t.alive == m.alive && t.state == m.state && t.targetX == m.targetX && t.equipped == m.equipped
    && t.bay == m.bay && t.carried == m.carried
  }

  lemma SignedStride(v: real, dt: real)
    ensures 1.0 * v * dt == v * dt && -1.0 * v * dt == -(v * dt)
  {
    var w := -1.0 * v;
    assert w * dt + v * dt == (w + v) * dt;
  }

  lemma DeepeningKeepsTheErrand(def: Definition, m: Mole, dt: real)
    ensures SameErrand(m, Deepened(def, m, dt)) && Deepened(def, m, dt).x == m.x
  {
    hide Abs, Sign;
  }

  lemma PaceIsSpeed(def: Definition, m: Mole, dt: real, lo: real, hi: real)
    requires Walking(m) && Paced(def, m, dt, lo, hi)
    ensures Within(Speed(def, m), dt, lo, hi)
  {
    match m.state
    case MovingUnderground => assert Speed(def, m) == def.t.undergroundSpeed * def.pathEfficiency(m.bay.path);
    case _ =>
  }

  lemma StrodeStands(def: Definition, m: Mole, dx: real, dt: real)
    ensures var t := Strode(def, m, dx, dt);
            && t.x == (if dx > 0.0 then m.x + Speed(def, m) * dt else m.x - Speed(def, m) * dt)
            && t.facing == (if dx > 0.0 then Right else Left) && SameErrand(m, t)
  {
    hide Speed;
    SignedStride(Speed(def, m), dt);
  }

  lemma StepIsAStride(def: Definition, m: Mole, draws: nat, dt: real)
    requires Walking(m) && Distance(m.x, m.targetX.value) >= def.t.arriveDistance
    ensures var d := Deepened(def, m, dt);
            && StateStep(def, m, draws, dt) == Step(Strode(def, d, m.targetX.value - m.x, dt), draws, None)
            && SameErrand(m, d) && d.x == m.x
  {
    DeepeningKeepsTheErrand(def, m, dt);
    hide Deepened, Strode;
  }

  lemma PaceOnTheErrand(def: Definition, m: Mole, t: Mole, dt: real, lo: real, hi: real)
    requires Paced(def, m, dt, lo, hi) && SameErrand(m, t)
    ensures Paced(def, t, dt, lo, hi)
  {
    hide StridesWithin;
  }

  /** A mole that is not there yet takes one stride, to the side its target lies on, and faces that way. */
  lemma StrideGoesToTheTarget(def: Definition, m: Mole, draws: nat, dt: real, lo: real, hi: real)
    requires Walking(m) && Paced(def, m, dt, lo, hi) && 0.0 < lo
    requires 0.0 < def.t.arriveDistance <= Distance(m.x, m.targetX.value)
    ensures var step, target := StateStep(def, m, draws, dt), m.targetX.value;
            && SameErrand(m, step.m) && step.draws == draws && step.event.None?
            && lo <= Distance(step.m.x, m.x) <= hi
            && (target > m.x ==> step.m.x > m.x && step.m.facing == Right)
            && (target < m.x ==> step.m.x < m.x && step.m.facing == Left)
  {
    hide Deepened, Strode, StateStep, Speed;
    assert 0.0 < Distance(m.x, m.targetX.value);
    var d := Deepened(def, m, dt);
    StepIsAStride(def, m, draws, dt);
    StrodeStands(def, d, m.targetX.value - m.x, dt);
    PaceOnTheErrand(def, m, d, dt, lo, hi);
    PaceIsSpeed(def, d, dt, lo, hi);
  }

  /** A stride no longer than the way brings it nearer and never past the target; a longer one cannot carry it
      further past than the stride itself. */
  lemma StrideComesNearer(def: Definition, m: Mole, draws: nat, dt: real, lo: real, hi: real)
    requires Walking(m) && Paced(def, m, dt, lo, hi) && 0.0 < lo
    requires 0.0 < def.t.arriveDistance <= Distance(m.x, m.targetX.value)
    ensures var x, target := StateStep(def, m, draws, dt).m.x, m.targetX.value;
            var before, after, stride := Distance(m.x, target), Distance(x, target), Distance(x, m.x);
            && (stride <= before ==> after == before - stride && (if target > m.x then x <= target else x >= target))
            && (stride > before ==> after == stride - before)
  {
    hide StateStep, Paced;
    StrideGoesToTheTarget(def, m, draws, dt, lo, hi);
  }

  /** Within reach of its target the mole is there: it stands on it, with no target left, and says so. */
  lemma ReachIsArrival(def: Definition, m: Mole, draws: nat, dt: real)
    requires Walking(m) && Distance(m.x, m.targetX.value) < def.t.arriveDistance
    ensures var step := StateStep(def, m, draws, dt);
            && step.m.x == m.targetX.value && step.m.targetX.None? && step.event.Some?
            && (m.state != CarryingItem ==> step.event == Some(ReachedDestination) && step.m.state == Idle)
  {
    DeepeningKeepsTheErrand(def, m, dt);
    hide Deepened;
  }

  /** The roll against the chance decides whether the first item carried is eaten or delivered; the mole
      stays loaded exactly while something is left. */
  lemma TheRollDecides(def: Definition, m: Mole, draws: nat, dt: real)
    requires Walking(m) && m.state == CarryingItem && m.carried != []
    requires Distance(m.x, m.targetX.value) < def.t.arriveDistance
    ensures var step, chance := StateStep(def, m, draws, dt),
                                def.t.itemEatChance * def.eatChanceMultiplier(m.bay.stabilisation);
            && (def.random(draws) < chance ==> step.event == Some(ItemEaten(m.carried[0])))
            && (def.random(draws) >= chance ==> step.event == Some(ItemDelivered(m.carried[0])))
            && step.m.carried == m.carried[1..] && step.draws == draws + 1
            && step.m.state == (if |m.carried| == 1 then Idle else CarryingItem)
  {
    DeepeningKeepsTheErrand(def, m, dt);
    hide Deepened;
  }

  /** Depth changes toward the depth ordered, by its own speed, and stays there once it is close. */
  lemma DepthGoesWhereOrdered(def: Definition, m: Mole, draws: nat, dt: real)
    requires Walking(m) && m.targetDepth.Some? && 0.0 < def.t.depthSpeed * dt
    ensures var d, goal := StateStep(def, m, draws, dt).m, m.targetDepth.value;
            if Distance(m.depth, goal) < def.t.depthEpsilon then d.depth == goal && d.targetDepth.None?
            else
              && d.targetDepth == m.targetDepth && Distance(d.depth, m.depth) == def.t.depthSpeed * dt
              && (goal > m.depth ==> d.depth > m.depth) && (goal < m.depth ==> d.depth < m.depth)
  {
    SignedStride(def.t.depthSpeed, dt);
    hide Speed, Strode, Arrived;
    StridingKeepsDepth(def, Deepened(def, m, dt), draws, dt);
  }

  lemma StridingKeepsDepth(def: Definition, m: Mole, draws: nat, dt: real)
    ensures forall dx: real :: var t := Strode(def, m, dx, dt); t.depth == m.depth && t.targetDepth == m.targetDepth
    ensures forall target: real ::
              var t := Arrived(def, m, draws, target).m; t.depth == m.depth && t.targetDepth == m.targetDepth
  {
    hide Speed;
  }

  /// Whole errands

  /** Nothing but the clock: every input is a tick of the same length. */
  predicate OnlyTicks(inputs: seq<Input>, dt: real) {
    forall i :: 0 <= i < |inputs| ==> inputs[i].Tick? && inputs[i].dt == dt
  }

  /** The mole never gets hungry enough on the way to be pulled or to wander. */
  predicate Calm(def: Definition, r: Run, inputs: seq<Input>) {
    forall k :: 0 <= k <= |inputs| ==> After(def, r, inputs[..k]).m.hunger <= def.t.hungryThreshold
  }

  /** The same place, heading for the same depth, on the same errand. */
  predicate Unmoved(m: Mole, t: Mole) {
    SameErrand(m, t) && t.x == m.x && t.depth == m.depth && t.targetDepth == m.targetDepth
  }

  lemma DrivingKeepsHunger(def: Definition, m: Mole, draws: nat, dt: real, field: Field)
    ensures Driven(def, m, draws, dt, field).m.hunger == m.hunger
    ensures m.hunger <= def.t.hungryThreshold ==> Unmoved(m, Driven(def, m, draws, dt, field).m)
  {
  }

  lemma CalmHungerMovesNothing(def: Definition, m: Mole, draws: nat, dt: real, edibles: seq<Edible>)
    requires Hungered(def, m, draws, dt, edibles).m.hunger <= def.t.hungryThreshold
    ensures Unmoved(m, Hungered(def, m, draws, dt, edibles).m)
  {
    hide Driven, HungerRate, FindEdible;
    if m.alive {
      var hungry := Hungrier(def, m, dt, edibles);
      DrivingKeepsHunger(def, hungry, draws, dt, def.totalPull(m.x, m.y, hungry.hunger, edibles));
    }
  }

  /** A tick that leaves the mole calm moves it as its state machine does, and by nothing else. */
  lemma CalmTickIsAStep(def: Definition, r: Run, dt: real, edibles: seq<Edible>)
    requires Next(def, r, Tick(dt, edibles)).m.hunger <= def.t.hungryThreshold
    ensures Unmoved(StateStep(def, r.m, r.draws, dt).m, Next(def, r, Tick(dt, edibles)).m)
  {
    hide StateStep, Hungered, Scanned, Roams;
    var walked := Walked(def, r.m, r.draws, dt);
    ScanIsSurroundings(def, walked.m, dt);
    CalmHungerMovesNothing(def, Scanned(def, walked.m, dt), walked.draws, dt, edibles);
  }

  lemma PrefixesAreCalm(def: Definition, r: Run, inputs: seq<Input>)
    requires Calm(def, r, inputs) && inputs != []
    ensures Calm(def, r, inputs[..|inputs| - 1])
    ensures After(def, r, inputs).m.hunger <= def.t.hungryThreshold
  {
    var front := inputs[..|inputs| - 1];
    forall k | 0 <= k <= |front|
      ensures After(def, r, front[..k]).m.hunger <= def.t.hungryThreshold
    {
      assert front[..k] == inputs[..k];
    }
    assert inputs[..|inputs|] == inputs;
  }

  /** The mole stands on its target and has none left. */
  predicate IsThere(m: Mole, target: real) {
    m.x == target && m.targetX.None?
  }

  /** At some point of the run the mole was there. */
  predicate GotThere(def: Definition, r: Run, inputs: seq<Input>, target: real) {
    exists k :: 0 <= k <= |inputs| && IsThere(After(def, r, inputs[..k]).m, target)
  }

  /** Still on the same errand, and nearer by a stride of at least `lo` for each of `n` ticks, or within reach. */
  predicate OnTheWay(def: Definition, m: Mole, t: Mole, lo: real, n: nat) {
    && m.targetX.Some? && SameErrand(m, t)
    && var before, now := Distance(m.x, m.targetX.value), Distance(t.x, m.targetX.value);
       now < def.t.arriveDistance || now <= before - lo * n as real
  }

  /** What a step does to the way that is left. */
  lemma StepOnTheWay(def: Definition, m: Mole, r: Run, dt: real, lo: real, hi: real, n: nat)
    requires Walking(m) && Paced(def, m, dt, lo, hi) && 0.0 < lo && hi < 2.0 * def.t.arriveDistance
    requires OnTheWay(def, m, r.m, lo, n)
    ensures var t := StateStep(def, r.m, r.draws, dt).m;
            if Distance(r.m.x, m.targetX.value) < def.t.arriveDistance then IsThere(t, m.targetX.value)
            else OnTheWay(def, m, t, lo, n + 1)
  {
    PaceOnTheErrand(def, m, r.m, dt, lo, hi);
    hide Paced, StateStep, Distance;
    if Distance(r.m.x, m.targetX.value) < def.t.arriveDistance {
      ReachIsArrival(def, r.m, r.draws, dt);
    } else {
      StrideGoesToTheTarget(def, r.m, r.draws, dt, lo, hi);
      StrideComesNearer(def, r.m, r.draws, dt, lo, hi);
      var t, target := StateStep(def, r.m, r.draws, dt).m, m.targetX.value;
      WayLeft(Distance(m.x, target), Distance(r.m.x, target), Distance(t.x, target), Distance(t.x, r.m.x), lo, n);
    }
  }

  /** One stride less to go; or the stride went past, and not by more than it was too long. */
  lemma WayLeft(start: real, before: real, after: real, stride: real, lo: real, n: nat)
    requires before <= start - lo * n as real && lo <= stride
    requires after == if stride <= before then before - stride else stride - before
    ensures after <= start - lo * (n + 1) as real || after == stride - before
  {
    assert lo * (n + 1) as real == lo * n as real + lo;
  }

  lemma OneTickNearer(def: Definition, m: Mole, r: Run, dt: real, edibles: seq<Edible>, lo: real, hi: real, n: nat)
    requires Walking(m) && Paced(def, m, dt, lo, hi) && 0.0 < lo && hi < 2.0 * def.t.arriveDistance
    requires OnTheWay(def, m, r.m, lo, n) && Next(def, r, Tick(dt, edibles)).m.hunger <= def.t.hungryThreshold
    ensures var t := Next(def, r, Tick(dt, edibles)).m;
            if Distance(r.m.x, m.targetX.value) < def.t.arriveDistance then IsThere(t, m.targetX.value)
            else OnTheWay(def, m, t, lo, n + 1)
  {
    hide Paced, StateStep, Next;
    CalmTickIsAStep(def, r, dt, edibles);
    StepOnTheWay(def, m, r, dt, lo, hi, n);
  }

  lemma GotThereEarlier(def: Definition, r: Run, inputs: seq<Input>, target: real)
    requires inputs != []
    ensures GotThere(def, r, inputs[..|inputs| - 1], target) ==> GotThere(def, r, inputs, target)
    ensures IsThere(After(def, r, inputs).m, target) ==> GotThere(def, r, inputs, target)
  {
    var front := inputs[..|inputs| - 1];
    if GotThere(def, r, front, target) {
      var k :| 0 <= k <= |front| && IsThere(After(def, r, front[..k]).m, target);
      assert front[..k] == inputs[..k];
    }
    assert inputs[..|inputs|] == inputs;
  }

  lemma TicksOnly(inputs: seq<Input>, dt: real)
    requires OnlyTicks(inputs, dt) && inputs != []
    ensures OnlyTicks(inputs[..|inputs| - 1], dt) && inputs[|inputs| - 1].Tick? && inputs[|inputs| - 1].dt == dt
  {
  }

  lemma {:induction false} ClosingIn(def: Definition, r: Run, dt: real, inputs: seq<Input>, lo: real, hi: real)
    requires Walking(r.m) && Paced(def, r.m, dt, lo, hi) && 0.0 < lo && hi < 2.0 * def.t.arriveDistance
    requires OnlyTicks(inputs, dt) && Calm(def, r, inputs)
    ensures GotThere(def, r, inputs, r.m.targetX.value) || OnTheWay(def, r.m, After(def, r, inputs).m, lo, |inputs|)
    ensures GotThere(def, r, inputs, r.m.targetX.value)
            || inputs == []
            || Distance(After(def, r, inputs[..|inputs| - 1]).m.x, r.m.targetX.value) >= def.t.arriveDistance
  {
    if inputs != [] {
      hide Paced, Calm, Next, OnTheWay, IsThere, GotThere, Distance, OnlyTicks;
      assert OnlyTicks(inputs[..|inputs| - 1], dt) && inputs[|inputs| - 1].Tick? && inputs[|inputs| - 1].dt == dt by {
        TicksOnly(inputs, dt);
      }
      var n := |inputs| - 1;
      var target := r.m.targetX.value;
      PrefixesAreCalm(def, r, inputs);
      GotThereEarlier(def, r, inputs, target);
      ClosingIn(def, r, dt, inputs[..n], lo, hi);
      if !GotThere(def, r, inputs[..n], target) {
        OneTickNearer(def, r.m, After(def, r, inputs[..n]), dt, inputs[n].edibles, lo, hi, n);
      }
    }
  }

  /** A calm mole with a target gets there: with strides of at least `lo`, and less than twice the distance at
      which it counts as there, it takes at most one tick more than it needs to close the gap. */
  lemma ErrandsEnd(def: Definition, r: Run, dt: real, inputs: seq<Input>, lo: real, hi: real)
    requires Walking(r.m) && Paced(def, r.m, dt, lo, hi) && 0.0 < lo && hi < 2.0 * def.t.arriveDistance
    requires OnlyTicks(inputs, dt) && Calm(def, r, inputs) && inputs != []
    requires lo * (|inputs| - 1) as real > Distance(r.m.x, r.m.targetX.value) - def.t.arriveDistance
    ensures GotThere(def, r, inputs, r.m.targetX.value)
  {
    hide Paced, Calm, GotThere, After;
    var n := |inputs| - 1;
    ClosingIn(def, r, dt, inputs, lo, hi);
    PrefixesAreCalm(def, r, inputs);
    ClosingIn(def, r, dt, inputs[..n], lo, hi);
    GotThereEarlier(def, r, inputs, r.m.targetX.value);
  }

  /// Orders to go somewhere

  /** A living mole that is told to go somewhere goes there: under ground or above as told, diving or surfacing
      if it must, in the time the pace of that way takes. */
  lemma MoveOrdersAreCarriedOut(def: Definition, r: Run, target: real, underground: bool, dt: real, inputs: seq<Input>,
                                lo: real, hi: real)
    requires r.m.alive && r.m.state != Dead && 0.0 < lo && hi < 2.0 * def.t.arriveDistance
    requires StridesWithin(def.t, if underground then MovingUnderground else MovingAboveGround, r.m.equipped,
                           def.pathEfficiency(r.m.bay.path), dt, lo, hi)
    requires var told := Next(def, r, Order(MoveTo(target, underground)));
             OnlyTicks(inputs, dt) && Calm(def, told, inputs) && inputs != []
    requires lo * (|inputs| - 1) as real > Distance(r.m.x, target) - def.t.arriveDistance
    ensures var told := Next(def, r, Order(MoveTo(target, underground)));
            && GotThere(def, told, inputs, target)
            && told.m.targetDepth == (if underground && r.m.depth < def.t.diveTriggerDepth
                                        then Some(def.t.diveTargetDepth)
                                      else if !underground && r.m.depth > def.t.surfaceThreshold then Some(0.0)
                                      else r.m.targetDepth)
  {
    hide StridesWithin, Calm, OnlyTicks, GotThere;
    ErrandsEnd(def, Next(def, r, Order(MoveTo(target, underground))), dt, inputs, lo, hi);
  }

  /** A loaded mole in the carrying state that is told where to deliver goes there. */
  lemma DeliveriesAreCarriedOut(def: Definition, r: Run, target: real, dt: real, inputs: seq<Input>, lo: real, hi: real)
    requires r.m.alive && r.m.state == CarryingItem && r.m.carried != []
    requires 0.0 < lo && hi < 2.0 * def.t.arriveDistance && Paced(def, r.m, dt, lo, hi)
    requires var told := Next(def, r, Order(Deliver(target)));
             OnlyTicks(inputs, dt) && Calm(def, told, inputs) && inputs != []
    requires lo * (|inputs| - 1) as real > Distance(r.m.x, target) - def.t.arriveDistance
    ensures GotThere(def, Next(def, r, Order(Deliver(target))), inputs, target)
  {
    hide Calm, OnlyTicks, GotThere, StridesWithin;
    ErrandsEnd(def, Next(def, r, Order(Deliver(target))), dt, inputs, lo, hi);
  }

  /** The bound on the stride is needed: a mole whose stride is at least twice the reach, standing half a stride
      from its target, steps over it and back for ever. */
  lemma {:induction false} OversteppingNeverArrives(def: Definition, r: Run, dt: real, inputs: seq<Input>, stride: real)
    requires Walking(r.m) && Paced(def, r.m, dt, stride, stride)
    requires 0.0 < 2.0 * def.t.arriveDistance <= stride && Distance(r.m.x, r.m.targetX.value) == stride / 2.0
    requires OnlyTicks(inputs, dt) && Calm(def, r, inputs)
    ensures var t := After(def, r, inputs).m;
            SameErrand(r.m, t) && Distance(t.x, r.m.targetX.value) == stride / 2.0
  {
    hide Paced, Calm, Next, OnlyTicks, StateStep;
    if inputs != [] {
      var n := |inputs| - 1;
      PrefixesAreCalm(def, r, inputs);
      TicksOnly(inputs, dt);
      OversteppingNeverArrives(def, r, dt, inputs[..n], stride);
      var s := After(def, r, inputs[..n]);
      PaceOnTheErrand(def, r.m, s.m, dt, stride, stride);
      StrideGoesToTheTarget(def, s.m, s.draws, dt, stride, stride);
      StrideComesNearer(def, s.m, s.draws, dt, stride, stride);
      CalmTickIsAStep(def, s, dt, inputs[n].edibles);
    }
  }

  /// Orders to work

  /** A tick of work: the timer runs down, and when it has run out the work is done and reported. */
  lemma WorkGoesOn(def: Definition, m: Mole, draws: nat, dt: real)
    requires m.alive && (m.state == DiggingTrap || m.state == SabotagingCable)
    ensures var step := StateStep(def, m, draws, dt);
            && step.m.x == m.x && step.m.y == m.y && step.draws == draws && step.m.pending == m.pending
            && step.m.actionTimer == m.actionTimer - dt && step.m.alive
            && (m.actionTimer > dt ==> step.m.state == m.state && step.event.None?)
            && (m.actionTimer <= dt ==>
                  && step.m.state == Idle
                  && (m.state == DiggingTrap ==> step.event == Some(TrapTriggered(m.x, m.y)))
                  && (m.state == SabotagingCable ==> step.event == Some(CableSabotaged(def.cableName(m.x)))))
  {
  }

  /** The event a finished job reports. */
  function Report(def: Definition, job: MoleState, x: real, y: real): MoleEvent {
    if job == DiggingTrap then TrapTriggered(x, y) else CableSabotaged(def.cableName(x))
  }

  /** What a tick's second half leaves alone when the mole stays calm. */
  lemma CalmWorkTick(def: Definition, r: Run, dt: real, edibles: seq<Edible>)
    requires Next(def, r, Tick(dt, edibles)).m.hunger <= def.t.hungryThreshold
    ensures var t, step := Next(def, r, Tick(dt, edibles)), StateStep(def, r.m, r.draws, dt);
            && t.m.state == step.m.state && t.m.alive == step.m.alive && t.m.x == step.m.x && t.m.y == step.m.y
            && t.m.actionTimer == step.m.actionTimer
            && r.log <= t.log && (step.event.Some? ==> step.event.value in t.log)
  {
    hide StateStep, Hungered, Scanned, Roams;
    var walked := Walked(def, r.m, r.draws, dt);
    ScanIsSurroundings(def, walked.m, dt);
    CalmHungerStaysAtWork(def, Scanned(def, walked.m, dt), walked.draws, dt, edibles);
    var stirred := Stirred(def, r.m, r.draws, dt, edibles).m;
    assert stirred.pending[..|walked.m.pending|] == walked.m.pending by {
      SensingIsSurroundings(def, walked.m, walked.draws, dt, edibles);
    }
    var step := StateStep(def, r.m, r.draws, dt);
    if step.event.Some? {
      assert walked.m.pending[|step.m.pending|] == step.event.value;
      assert stirred.pending[|step.m.pending|] == step.event.value;
    }
  }

  lemma CalmHungerStaysAtWork(def: Definition, m: Mole, draws: nat, dt: real, edibles: seq<Edible>)
    requires Hungered(def, m, draws, dt, edibles).m.hunger <= def.t.hungryThreshold
    ensures var t := Hungered(def, m, draws, dt, edibles).m;
            t.state == m.state && t.alive == m.alive && t.x == m.x && t.y == m.y && t.actionTimer == m.actionTimer
  {
    hide HungerRate, FindEdible;
  }

  /** A calm mole at work stays at it until the timer runs out, and then the job is done where it stands. */
  lemma {:induction false} WorkTakesItsTime(def: Definition, r: Run, dt: real, inputs: seq<Input>)
    requires r.m.alive && (r.m.state == DiggingTrap || r.m.state == SabotagingCable) && 0.0 < dt
    requires OnlyTicks(inputs, dt) && Calm(def, r, inputs) && inputs != []
    requires (|inputs| - 1) as real * dt < r.m.actionTimer
    ensures var t := After(def, r, inputs);
            && t.m.alive && t.m.x == r.m.x && t.m.y == r.m.y
            && t.m.actionTimer == r.m.actionTimer - |inputs| as real * dt
            && (|inputs| as real * dt < r.m.actionTimer ==> t.m.state == r.m.state)
            && (|inputs| as real * dt >= r.m.actionTimer ==>
                  t.m.state == Idle && Report(def, r.m.state, r.m.x, r.m.y) in t.log)
  {
    hide Calm, Next, StateStep, OnlyTicks;
    var n := |inputs| - 1;
    var front := inputs[..n];
    PrefixesAreCalm(def, r, inputs);
    TicksOnly(inputs, dt);
    assert (n + 1) as real * dt == n as real * dt + dt;
    if front == [] {
      assert After(def, r, front) == r;
    } else {
      assert (n - 1) as real * dt == n as real * dt - dt;
      WorkTakesItsTime(def, r, dt, front);
    }
    var s := After(def, r, front);
    WorkGoesOn(def, s.m, s.draws, dt);
    CalmWorkTick(def, s, dt, inputs[n].edibles);
  }

  /** A living mole deep enough takes up the job it is given with the time that job takes; any other refuses. */
  lemma WorkOrdersAreTakenUp(def: Definition, m: Mole)
    ensures var able := m.alive && m.state != Dead && m.depth > def.t.digMinDepth;
            && Applied(def, m, DigTrap) ==
               (if able then m.(state := DiggingTrap, actionTimer := def.t.trapDigDuration) else m)
            && Applied(def, m, SabotageCable) ==
               (if able then m.(state := SabotagingCable, actionTimer := def.t.cableSabotageDuration) else m)
  {
  }

  /// Flight and distraction

  /** A flying mole goes the way it faces, a fixed share of its distance a tick, until its progress is full. */
  lemma GlidesTheWayItFaces(def: Definition, m: Mole, draws: nat, dt: real)
    requires m.alive && m.state == Gliding
    ensures var step, way := StateStep(def, m, draws, dt), m.glideDistance / 2.0 * def.t.gliderFallSpeed / 60.0 * dt;
            && (m.facing == Right ==> step.m.x == m.x + way) && (m.facing == Left ==> step.m.x == m.x - way)
            && step.m.glideProgress == m.glideProgress + dt * def.t.glideRate && step.draws == draws
            && (step.m.glideProgress < 1.0 ==> step.m.state == Gliding && step.m.depth == m.depth && step.event.None?)
            && (step.m.glideProgress >= 1.0 ==>
                  step.m.state == Idle && step.m.depth == 0.0 && step.event == Some(GlideComplete(step.m.x)))
  {
    SignedStride(m.glideDistance / 2.0 * def.t.gliderFallSpeed / 60.0, dt);
  }

  /** A glide is launched exactly by a living mole with the glider on the surface, over a distance in proportion
      to its height, from the start. */
  lemma GlidesAreLaunchedIff(def: Definition, m: Mole, height: real)
    ensures var t := Applied(def, m, LaunchGlider(height));
            if m.alive && m.equipped == Some(Glider) && m.depth < def.t.surfaceThreshold then
              && t.state == Gliding && t.glideHeight == height && t.glideProgress == 0.0
              && t.glideDistance == height * def.t.gliderHeightMultiplier
              && t.pending == m.pending + [GlideStarted(height)] && t.x == m.x && t.facing == m.facing
            else t == m
  {
  }

  /** A distracted mole is drawn to the side its distraction lies on, at its surface pace, until the time of it
      is up; then it forgets it. */
  lemma DistractionDraws(def: Definition, m: Mole, draws: nat, dt: real)
    requires m.alive && m.state == Distracted
    ensures var step := StateStep(def, m, draws, dt);
            && step.m.distractionTimer == m.distractionTimer - dt && step.draws == draws && step.event.None?
            && (m.distractionX.None? ==> step.m.x == m.x)
            && (m.distractionX.Some? && m.distractionX.value > m.x ==>
                  step.m.x == m.x + def.t.aboveGroundSpeed * dt && step.m.facing == Right)
            && (m.distractionX.Some? && m.distractionX.value < m.x ==>
                  step.m.x == m.x - def.t.aboveGroundSpeed * dt && step.m.facing == Left)
            && (if m.distractionTimer > dt then step.m.state == Distracted && step.m.distractionX == m.distractionX
                else step.m.state == Idle && step.m.distractionX.None?)
  {
    SignedStride(def.t.aboveGroundSpeed, dt);
  }

  /** A loose wire distracts exactly a living mole within range that is not at work. */
  lemma WiresDistractIff(def: Definition, m: Mole, x: real)
    ensures var t := Applied(def, m, DistractByWire(x));
            if m.alive && m.state !in {Dead, DiggingTrap, SabotagingCable} && Distance(x, m.x) < def.t.wireRange then
              t == m.(state := Distracted, distractionTimer := def.t.distractionDuration, distractionX := Some(x))
            else t == m
  {
  }

  /// Hunger

  /** Hunger only grows, by its rate, up to full. */
  lemma HungerGrows(def: Definition, m: Mole, draws: nat, dt: real, edibles: seq<Edible>)
    requires m.alive
    ensures var h := Hungered(def, m, draws, dt, edibles).m.hunger;
            h <= 1.0 && (h == 1.0 || h == m.hunger + HungerRate(def, m) * dt)
            && (HungerRate(def, m) * dt >= 0.0 && m.hunger <= 1.0 ==> m.hunger <= h)
  {
    hide HungerRate, FindEdible, Pulled, Resisted, Wandered;
    ResistingKeepsHunger(def, Hungrier(def, m, dt, edibles), draws, dt);
  }

  lemma ResistingKeepsHunger(def: Definition, m: Mole, draws: nat, dt: real)
    ensures Resisted(def, m, dt).hunger == m.hunger && Resisted(def, m, dt).x == m.x
    ensures forall pull: real :: Pulled(def, m, dt, pull).hunger == m.hunger
    ensures forall n: nat :: Wandered(def, m, n, dt).hunger == m.hunger
    ensures forall t: Mole, pull: real :: t.hunger == m.hunger ==> Pulled(def, t, dt, pull).hunger == m.hunger
    ensures forall t: Mole, n: nat :: t.hunger == m.hunger ==> Wandered(def, t, n, dt).hunger == m.hunger
  {
  }

  /** A mole on the move hungers three times as fast as a resting one. */
  lemma MovingHungersThrice(def: Definition, m: Mole, resting: Mole)
    requires m.state in {MovingUnderground, MovingAboveGround, CarryingItem} && resting.state == Idle
    requires resting == m.(state := Idle)
    ensures HungerRate(def, m) == 3.0 * HungerRate(def, resting)
  {
  }

  /** A tick short of the hungry threshold pulls at nothing and ends any resistance. */
  lemma FedMolesObey(def: Definition, m: Mole, draws: nat, dt: real, edibles: seq<Edible>)
    requires m.alive && Hungered(def, m, draws, dt, edibles).m.hunger <= def.t.hungryThreshold
    ensures var step := Hungered(def, m, draws, dt, edibles);
            step.m.x == m.x && step.m.facing == m.facing && !step.m.resisting && step.draws == draws
            && step.m.pending == m.pending + if m.resisting then [HungerResistanceEnded] else []
  {
    hide HungerRate, FindEdible;
    assert m.pending + [] == m.pending;
  }

  /** How far hunger takes the mole in a tick, before any wandering. */
  function Drawn(def: Definition, resisting: bool, pull: real, dt: real): real {
    if resisting then pull * dt else pull * def.t.dragMultiplier * dt
  }

  /** A hungry mole is drawn the way the field pulls, with its whole force while it resists and a share of it
      otherwise; it resists from the end of each interval for the duration of an episode; and one that is
      starving with nothing near enough wanders besides, to the side one draw decides. */
  lemma HungryMolesAreDrawn(def: Definition, m: Mole, draws: nat, dt: real, edibles: seq<Edible>)
    requires m.alive && Hungered(def, m, draws, dt, edibles).m.hunger > def.t.hungryThreshold
    ensures var step := Hungered(def, m, draws, dt, edibles);
            var field, time := def.totalPull(m.x, m.y, step.m.hunger, edibles), m.fightTimer + dt;
            var lost := step.m.hunger > def.t.starvingThreshold && field.dist > def.t.wanderMinDistance;
            var way := def.t.aboveGroundSpeed * def.t.wanderMultiplier * dt;
            && (step.m.resisting <==> def.t.fightInterval < time <= def.t.fightInterval + def.t.fightDuration)
            && step.draws == draws + (if lost then 1 else 0)
            && step.m.x == m.x + Drawn(def, step.m.resisting, field.pull, dt)
                           + (if !lost then 0.0 else if def.random(draws) > 0.5 then way else -way)
            && (step.m.resisting && field.pull > 0.0 ==> step.m.facing == Right)
            && (step.m.resisting && field.pull < 0.0 ==> step.m.facing == Left)
  {
    hide FindEdible, HungerRate;
    var hungry := Hungrier(def, m, dt, edibles);
    var field := def.totalPull(m.x, m.y, hungry.hunger, edibles);
    var resisted := Resisted(def, hungry, dt);
    PulledStands(def, resisted, dt, field.pull);
    WanderedStands(def, Pulled(def, resisted, dt, field.pull), draws, dt);
    hide Pulled, Wandered;
  }

  lemma PulledStands(def: Definition, m: Mole, dt: real, pull: real)
    ensures var t := Pulled(def, m, dt, pull);
            && t.x == m.x + Drawn(def, m.resisting, pull, dt) && t.resisting == m.resisting && t.hunger == m.hunger
            && (m.resisting && pull > 0.0 ==> t.facing == Right) && (m.resisting && pull < 0.0 ==> t.facing == Left)
  {
  }

  lemma WanderedStands(def: Definition, m: Mole, draws: nat, dt: real)
    ensures var t, way := Wandered(def, m, draws, dt), def.t.aboveGroundSpeed * def.t.wanderMultiplier * dt;
            && t.x == m.x + (if def.random(draws) > 0.5 then way else -way)
            && t.resisting == m.resisting && t.hunger == m.hunger && t.facing == m.facing
  {
    SignedWay(def.t.aboveGroundSpeed, def.t.wanderMultiplier, dt);
  }

  lemma SignedWay(a: real, b: real, dt: real)
    ensures 1.0 * a * b * dt == a * b * dt && -1.0 * a * b * dt == -(a * b * dt)
  {
    var w := -1.0 * a;
    assert w * b + a * b == (w + a) * b;
    assert w * b * dt + a * b * dt == (w * b + a * b) * dt;
  }

  /** The mole looks at the first edible of the id the field names nearest, if there is one. */
  lemma {:induction false} LooksAtTheNearest(edibles: seq<Edible>, id: string)
    ensures FindEdible(edibles, id).Some? <==> exists i :: 0 <= i < |edibles| && edibles[i].id == id
    ensures forall i ::
              0 <= i < |edibles| && edibles[i].id == id && (forall j :: 0 <= j < i ==> edibles[j].id != id) ==>
              FindEdible(edibles, id) == Some(edibles[i].x)
  {
    if edibles != [] && edibles[0].id != id {
      LooksAtTheNearest(edibles[1..], id);
      assert forall i :: 0 < i < |edibles| ==> edibles[i] == edibles[1..][i - 1];
      forall i | 0 <= i < |edibles| && edibles[i].id == id && forall j :: 0 <= j < i ==> edibles[j].id != id
        ensures FindEdible(edibles, id) == Some(edibles[i].x)
      {
        assert edibles[1..][i - 1].id == id;
      }
    }
  }

  /** Hunger feeds itself: a starved mole hungers half again as fast as a fed one. At rest and fed it hungers at
      half the base rate. */
  lemma StarvedHungersFaster(def: Definition, m: Mole)
    ensures 2.0 * HungerRate(def, m.(hunger := 1.0)) == 3.0 * HungerRate(def, m.(hunger := 0.0))
    ensures m.state == Idle ==>
              HungerRate(def, m.(hunger := 0.0)) ==
              def.t.hungerRate * 0.5 * def.eatChanceMultiplier(m.bay.stabilisation) * m.levelMultiplier
  {
  }

  /// Small orders and scans

  /** A mole is born idle on the surface, facing right, fed, alive and with nothing but its gear. */
  lemma NewbornsAreFresh(x: real, y: real, gear: Option<Equipment>, levelMultiplier: real)
    ensures var m := Newborn(x, y, gear, levelMultiplier);
            && m.x == x && m.y == y && m.depth == 0.0 && m.facing == Right && m.state == Idle && m.alive
            && m.targetX.None? && m.targetDepth.None? && m.carried == [] && m.equipped == gear && m.pending == []
            && m.hunger == 0.0 && !m.resisting && m.levelMultiplier == levelMultiplier
            && forall slot: Slot :: Rank(LevelIn(m.bay, slot)) == 0
  {
  }

  /** A living mole takes an item as long as it holds fewer than it can: as many as its rucksack takes, or as many
      as it carries without. */
  lemma TakesWhileThereIsRoom(def: Definition, m: Mole, item: string)
    ensures var t := Applied(def, m, GiveItem(item));
            var room := if m.equipped == Some(Rucksack) then def.t.rucksackCapacity else def.t.baseCapacity;
            if m.alive && |m.carried| < room
            then t == m.(carried := m.carried + [item], state := CarryingItem,
                      pending := m.pending + [ItemPickedUp(item)])
            else t == m
  {
  }

  /** A drop takes out the first item of that name, and idles the mole only if it was the last it carried. */
  lemma DropsTheFirst(def: Definition, m: Mole, item: string, i: nat)
    requires i < |m.carried| && m.carried[i] == item && forall j :: 0 <= j < i ==> m.carried[j] != item
    ensures Applied(def, m, DropItem(item)) ==
            m.(carried := m.carried[..i] + m.carried[i + 1..], pending := m.pending + [ItemDropped(item)],
               state := if |m.carried| == 1 then Idle else m.state)
  {
    FirstIndexIsUnique(m.carried, item, i);
  }

  /** New gear replaces the old; only taking off the rucksack sheds, down to what is carried without it. */
  lemma GearIsChanged(def: Definition, m: Mole, gear: Equipment)
    ensures var t, bare := Applied(def, m, Equip(gear)), Applied(def, m, Unequip);
            && t == m.(equipped := Some(gear), carried := t.carried)
            && bare == m.(equipped := None, carried := bare.carried)
            && (m.equipped != Some(Rucksack) ==> t.carried == m.carried == bare.carried)
            && (m.equipped == Some(Rucksack) ==>
                  && bare.carried ==
                     (if |m.carried| > def.t.baseCapacity then m.carried[..def.t.baseCapacity] else m.carried)
                  && t.carried == if gear == Rucksack then m.carried else bare.carried)
  {
  }

  /** A death is told by its own state, once; a dead mole cannot die again. */
  lemma DeathsAreTold(def: Definition, m: Mole)
    ensures Applied(def, m, Crush) == if m.alive then m.(state := Crushed, alive := false) else m
    ensures Applied(def, m, CatchByDog) == if m.alive then m.(state := CaughtByDog, alive := false) else m
  {
  }

  /** The dodge timer runs down while there is any of it. */
  lemma DodgesRunDown(def: Definition, m: Mole, draws: nat, dt: real)
    requires !m.alive || m.state == Idle
    ensures Walked(def, m, draws, dt).m.dodgeTimer == if m.dodgeTimer > 0.0 then m.dodgeTimer - dt else m.dodgeTimer
  {
  }

  /** The orders that only raise an event do so exactly for a living mole with the means, and change nothing else. */
  lemma SignalsAreGivenIff(def: Definition, m: Mole, index: nat)
    ensures var t := Applied(def, m, UseFlash);
            if m.alive && m.equipped == Some(FlashCamera) then t == m.(pending := m.pending + [FlashFired]) else t == m
    ensures var t := Applied(def, m, PlaySynthSound(index));
            if m.alive && index < def.soundCount(m.bay.audio) && index < |def.sounds|
            then t == m.(pending := m.pending + [SynthSoundPlayed(def.sounds[index])]) else t == m
  {
  }

  /** Feeding ends hunger, its target and any resistance, dead or alive. */
  lemma FeedingSates(def: Definition, m: Mole)
    ensures var t := Applied(def, m, Feed);
            && t.hunger == 0.0 && t.fightTimer == 0.0 && !t.resisting && t.hungerTargetX.None?
            && t.pending == m.pending + [FoodEaten] && SameErrand(m, t) && t.x == m.x
  {
  }

  function Rank(l: Level): nat {
    match l case Stock => 0 case Basic => 1 case Enhanced => 2 case Overclocked => 3
  }

  function LevelIn(bay: Bay, slot: Slot): Level {
    match slot
    case AudioSynthesiser => bay.audio
    case PathOptimiser => bay.path
    case SignalProcessor => bay.signal
    case VibrationAnalyser => bay.vibration
    case StabilisationCore => bay.stabilisation
  }

  /** An upgrade raises its own coprocessor by one level, up to the last, and no other. */
  lemma UpgradesRaiseOneLevel(def: Definition, m: Mole, slot: Slot, other: Slot)
    ensures var t := Applied(def, m, UpgradeCoprocessor(slot));
            && t == m.(bay := t.bay)
            && Rank(LevelIn(t.bay, slot)) ==
               (if Rank(LevelIn(m.bay, slot)) == 3 then 3 else Rank(LevelIn(m.bay, slot)) + 1)
            && (other != slot ==> LevelIn(t.bay, other) == LevelIn(m.bay, other))
  {
  }

  /** Under ground the scans come round each interval: the signal processor's while the mole tunnels or digs and
      has something in range, then the vibrations if there is a reading. Elsewhere the timer stands still. */
  lemma ScansComeRound(def: Definition, m: Mole, dt: real)
    ensures var t := Scanned(def, m, dt);
            var due := m.alive && m.depth > def.t.surfaceThreshold && m.scanTimer <= dt;
            var range, reading := def.sensorRange(m.bay.signal), def.vibrationQuality(m.bay.vibration);
            && t == m.(scanTimer := t.scanTimer, pending := t.pending)
            && t.scanTimer == (if due then def.t.scanInterval
                               else if m.alive && m.depth > def.t.surfaceThreshold then m.scanTimer - dt
                               else m.scanTimer)
            && t.pending == m.pending
                 + (if due && (m.state == MovingUnderground || m.state == DiggingTrap) && range > 0
                    then [UndergroundScanComplete(range)] else [])
                 + (if due && reading != NoData then [VibrationDetected(reading)] else [])
  {
    assert m.pending + [] == m.pending && m.pending + [] + [] == m.pending;
  }

  predicate IsScan(e: MoleEvent) {
    e.UndergroundScanComplete? || e.VibrationDetected?
  }

  predicate IsFight(e: MoleEvent) {
    e.HungerResistanceStarted? || e.HungerResistanceEnded?
  }

  /** `after` goes on where `before` ends, by at most `most` events of a kind. */
  predicate Adds(before: seq<MoleEvent>, after: seq<MoleEvent>, most: nat, kind: MoleEvent -> bool) {
    && |before| <= |after| <= |before| + most && after[..|before|] == before
    && forall i :: |before| <= i < |after| ==> kind(after[i])
  }

  /** The events of a tick, in order: what was queued, what the state machine reports, the scans, and last what
      hunger does to the mole's obedience. */
  lemma TickReportsInOrder(def: Definition, m: Mole, draws: nat, dt: real, edibles: seq<Edible>)
    ensures var step, walked := StateStep(def, m, draws, dt), Walked(def, m, draws, dt).m;
            var scanned, stirred := Scanned(def, walked, dt), Stirred(def, m, draws, dt, edibles).m;
            && walked.pending == step.m.pending + (if step.event.Some? then [step.event.value] else [])
            && Adds(walked.pending, scanned.pending, 2, IsScan) && Adds(scanned.pending, stirred.pending, 1, IsFight)
  {
    hide StateStep, Scanned, Hungered, Adds;
    var walked := Walked(def, m, draws, dt);
    ScanEvents(def, walked.m, dt);
    HungerEvents(def, Scanned(def, walked.m, dt), walked.draws, dt, edibles);
  }

  lemma ScanEvents(def: Definition, m: Mole, dt: real)
    ensures Adds(m.pending, Scanned(def, m, dt).pending, 2, IsScan)
  {
  }

  lemma HungerEvents(def: Definition, m: Mole, draws: nat, dt: real, edibles: seq<Edible>)
    ensures Adds(m.pending, Hungered(def, m, draws, dt, edibles).m.pending, 1, IsFight)
  {
    hide HungerRate, FindEdible;
    if m.alive {
      DrivingIsPersonal(def, Hungrier(def, m, dt, edibles), draws, dt,
                        def.totalPull(m.x, m.y, Hungrier(def, m, dt, edibles).hunger, edibles));
    }
  }
}
