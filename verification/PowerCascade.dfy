/** Cutting a supply takes down whatever hangs on it, however long the line between them. */
module PowerCascade {
  import opened Wrappers
  import opened Grounded

  datatype Effect =
    | Direct(act: Actuation, node: NodeId)
    | DevicePowerLost(node: NodeId)

  /// What power loss means

  /** Some node called `x` draws from `y`. */
  ghost predicate DrawsFrom(nodes: seq<Node>, x: NodeId, y: NodeId) {
    exists n :: n in nodes && n.id == x && y in n.deps
  }

  /** Each id on the line draws from the one before it. */
  ghost predicate PowerLine(nodes: seq<Node>, line: seq<NodeId>) {
    line != [] && forall i :: 0 < i < |line| ==> DrawsFrom(nodes, line[i], line[i - 1])
  }

  ghost predicate FedBy(nodes: seq<Node>, x: NodeId, source: NodeId) {
    exists line :: PowerLine(nodes, line) && line[0] == source && line[|line| - 1] == x
  }

  /** The nodes a cut at `source` takes down with it. */
  ghost function Downstream(nodes: seq<Node>, source: NodeId): set<NodeId> {
    set n | n in nodes && n.id != source && FedBy(nodes, n.id, source) :: n.id
  }

  lemma FedByItself(nodes: seq<Node>, source: NodeId)
    ensures FedBy(nodes, source, source)
  {
    assert PowerLine(nodes, [source]);
  }

  lemma FedByStep(nodes: seq<Node>, x: NodeId, y: NodeId, source: NodeId)
    requires FedBy(nodes, y, source) && DrawsFrom(nodes, x, y)
    ensures FedBy(nodes, x, source)
  {
    var line :| PowerLine(nodes, line) && line[0] == source && line[|line| - 1] == y;
    assert PowerLine(nodes, line + [x]);
    assert (line + [x])[|line|] == x;
  }

  /** A set that holds the source and is closed under drawing holds everything the source feeds. */
  lemma {:induction false} ClosedHoldsTheLine(nodes: seq<Node>, seen: set<NodeId>, line: seq<NodeId>)
    requires forall n, d :: n in nodes && d in n.deps && d in seen ==> n.id in seen
    requires PowerLine(nodes, line) && line[0] in seen
    ensures line[|line| - 1] in seen
  {
    if |line| > 1 {
      ClosedHoldsTheLine(nodes, seen, line[..|line| - 1]);
      assert DrawsFrom(nodes, line[|line| - 1], line[|line| - 2]);
    }
  }

  /// The worklist

  function Ids(nodes: seq<Node>): (ids: set<NodeId>)
    ensures forall x :: x in ids <==> exists n :: n in nodes && n.id == x
  {
    set n | n in nodes :: n.id
  }

  ghost predicate OnlyFed(nodes: seq<Node>, source: NodeId, seen: set<NodeId>) {
    && source in seen && seen <= Ids(nodes) + {source}
    && forall x :: x in seen ==> FedBy(nodes, x, source)
  }

  /** Everything drawing from a seen id that is neither waiting nor `current` has been seen, and so has
      everything among the first `done` nodes drawing from `current`. */
  ghost predicate Walked(nodes: seq<Node>, seen: set<NodeId>, frontier: seq<NodeId>, current: NodeId, done: nat)
    requires done <= |nodes|
  {
    && (forall i, d :: 0 <= i < |nodes| && d in nodes[i].deps && d in seen && d !in frontier && d != current ==>
          nodes[i].id in seen)
    && (forall i :: 0 <= i < done && current in nodes[i].deps ==> nodes[i].id in seen)
  }

  lemma WalkedSees(nodes: seq<Node>, seen: set<NodeId>, frontier: seq<NodeId>, current: NodeId, done: nat)
    requires done < |nodes| && Walked(nodes, seen, frontier, current, done) && current in nodes[done].deps
    ensures Walked(nodes, seen + {nodes[done].id}, frontier + [nodes[done].id], current, done + 1)
  {
    var x := nodes[done].id;
    forall i, d | 0 <= i < |nodes| && d in nodes[i].deps && d in seen + {x} && d !in frontier + [x] && d != current
      ensures nodes[i].id in seen + {x}
    {
      assert d !in frontier by { assert forall k :: 0 <= k < |frontier| ==> (frontier + [x])[k] == frontier[k]; }
      assert d != x by { assert (frontier + [x])[|frontier|] == x; }
    }
  }

  lemma OnlyFedSees(nodes: seq<Node>, source: NodeId, seen: set<NodeId>, current: NodeId, n: Node)
    requires OnlyFed(nodes, source, seen) && current in seen && n in nodes && current in n.deps
    ensures OnlyFed(nodes, source, seen + {n.id})
  {
    assert DrawsFrom(nodes, n.id, current);
    FedByStep(nodes, n.id, current, source);
  }

  lemma {:induction false} FewerLeft(all: set<NodeId>, seen: set<NodeId>, x: NodeId)
    requires x in all && x !in seen
    ensures |all - (seen + {x})| < |all - seen|
  {
    assert all - seen == (all - (seen + {x})) + {x};
  }

  ghost function Unseen(nodes: seq<Node>, source: NodeId, seen: set<NodeId>): nat {
    |Ids(nodes) + {source} - seen|
  }

  /** The walk around `current` is in order after its first `done` nodes. */
  ghost predicate Feeding(nodes: seq<Node>, source: NodeId, seen: set<NodeId>, frontier: seq<NodeId>,
                          current: NodeId, done: nat)
    requires done <= |nodes|
  {
    && OnlyFed(nodes, source, seen) && current in seen
    && (forall x :: x in frontier ==> x in seen)
    && Walked(nodes, seen, frontier, current, done)
  }

  lemma FeedSees(nodes: seq<Node>, source: NodeId, seen: set<NodeId>, frontier: seq<NodeId>, current: NodeId, done: nat)
    requires done < |nodes| && Feeding(nodes, source, seen, frontier, current, done)
    requires current in nodes[done].deps && nodes[done].id !in seen
    ensures Feeding(nodes, source, seen + {nodes[done].id}, frontier + [nodes[done].id], current, done + 1)
    ensures Unseen(nodes, source, seen + {nodes[done].id}) < Unseen(nodes, source, seen)
  {
    var x := nodes[done].id;
    WalkedSees(nodes, seen, frontier, current, done);
    OnlyFedSees(nodes, source, seen, current, nodes[done]);
    FewerLeft(Ids(nodes) + {source}, seen, x);
  }

  lemma FeedSkips(nodes: seq<Node>, source: NodeId, seen: set<NodeId>, frontier: seq<NodeId>, current: NodeId,
                  done: nat)
    requires done < |nodes| && Feeding(nodes, source, seen, frontier, current, done)
    requires current !in nodes[done].deps || nodes[done].id in seen
    ensures Feeding(nodes, source, seen, frontier, current, done + 1)
  {
  }

  /** See every node that draws from `current`, queueing the new ones. */
  method Feed(nodes: seq<Node>, ghost source: NodeId, seen0: set<NodeId>, frontier0: seq<NodeId>, current: NodeId)
    returns (seen: set<NodeId>, frontier: seq<NodeId>)
    requires Feeding(nodes, source, seen0, frontier0, current, 0)
    ensures Feeding(nodes, source, seen, frontier, current, |nodes|)
    ensures (seen == seen0 && frontier == frontier0) || Unseen(nodes, source, seen) < Unseen(nodes, source, seen0)
  {
    seen, frontier := seen0, frontier0;
    for i := 0 to |nodes|
      invariant Feeding(nodes, source, seen, frontier, current, i)
      invariant (seen == seen0 && frontier == frontier0) || Unseen(nodes, source, seen) < Unseen(nodes, source, seen0)
    {
      var other := nodes[i];
      if current in other.deps && other.id !in seen {
        FeedSees(nodes, source, seen, frontier, current, i);
        seen, frontier := seen + {other.id}, frontier + [other.id];
      } else {
        FeedSkips(nodes, source, seen, frontier, current, i);
      }
    }
  }

  /** Everything drawing from a seen id that is not waiting has been seen. */
  ghost predicate Settled(nodes: seq<Node>, seen: set<NodeId>, frontier: seq<NodeId>) {
    forall i, d :: 0 <= i < |nodes| && d in nodes[i].deps && d in seen && d !in frontier ==> nodes[i].id in seen
  }

  lemma PopStartsAWalk(nodes: seq<Node>, seen: set<NodeId>, frontier: seq<NodeId>)
    requires frontier != [] && Settled(nodes, seen, frontier)
    ensures Walked(nodes, seen, frontier[..|frontier| - 1], frontier[|frontier| - 1], 0)
  {
    assert frontier == frontier[..|frontier| - 1] + [frontier[|frontier| - 1]];
  }

  lemma WalkSettles(nodes: seq<Node>, seen: set<NodeId>, frontier: seq<NodeId>, current: NodeId)
    requires Walked(nodes, seen, frontier, current, |nodes|)
    ensures Settled(nodes, seen, frontier)
  {
    forall i, d | 0 <= i < |nodes| && d in nodes[i].deps && d in seen && d !in frontier
      ensures nodes[i].id in seen
    {
      if d == current {
        assert current in nodes[i].deps;
      }
    }
  }

  lemma ClosureReached(nodes: seq<Node>, source: NodeId, seen: set<NodeId>)
    requires OnlyFed(nodes, source, seen) && Settled(nodes, seen, [])
    ensures forall x :: x in seen <==> FedBy(nodes, x, source)
  {
    forall x | FedBy(nodes, x, source)
      ensures x in seen
    {
      var line :| PowerLine(nodes, line) && line[0] == source && line[|line| - 1] == x;
      ClosedHoldsTheLine(nodes, seen, line);
    }
  }

  /** The walk against the direction of supply, from the cut node to all it feeds. */
  method Walk(nodes: seq<Node>, source: NodeId) returns (seen: set<NodeId>)
    ensures forall x :: x in seen <==> FedBy(nodes, x, source)
  {
    FedByItself(nodes, source);
    var frontier := [source];
    seen := {source};
    while frontier != []
      invariant OnlyFed(nodes, source, seen) && forall x :: x in frontier ==> x in seen
      invariant Settled(nodes, seen, frontier)
      decreases Unseen(nodes, source, seen), |frontier|
    {
      var current := frontier[|frontier| - 1];
      PopStartsAWalk(nodes, seen, frontier);
      seen, frontier := Feed(nodes, source, seen, frontier[..|frontier| - 1], current);
      WalkSettles(nodes, seen, frontier, current);
    }
    ClosureReached(nodes, source, seen);
  }

  /// The effects

  /** One loss per node of `dead` other than the source, in declaration order. */
  function Losses(nodes: seq<Node>, source: NodeId, dead: set<NodeId>): (out: seq<Effect>)
    ensures |out| <= |nodes|
  {
    if nodes == [] then []
    else
      var n := nodes[|nodes| - 1];
      Losses(nodes[..|nodes| - 1], source, dead)
      + if n.id != source && n.id in dead then [DevicePowerLost(n.id)] else []
  }

  method ListLosses(nodes: seq<Node>, source: NodeId, seen: set<NodeId>) returns (out: seq<Effect>)
    ensures out == Losses(nodes, source, seen)
  {
    out := [];
    for i := 0 to |nodes|
      invariant out == Losses(nodes[..i], source, seen)
    {
      assert nodes[..i + 1][..i] == nodes[..i];
      if nodes[i].id != source && nodes[i].id in seen {
        out := out + [DevicePowerLost(nodes[i].id)];
      }
    }
    assert nodes[..|nodes|] == nodes;
  }

  lemma {:induction false} LossesAgree(nodes: seq<Node>, source: NodeId, a: set<NodeId>, b: set<NodeId>)
    requires forall n :: n in nodes && n.id != source ==> (n.id in a <==> n.id in b)
    ensures Losses(nodes, source, a) == Losses(nodes, source, b)
  {
    if nodes != [] {
      LossesAgree(nodes[..|nodes| - 1], source, a, b);
      assert nodes[|nodes| - 1] in nodes;
    }
  }

  /** An actuation's own effect, and for a cut a loss for each node downstream of it. */
  ghost function EffectsOf(nodes: seq<Node>, id: NodeId): seq<Effect> {
    var node := NodeById(nodes, id);
    if node.None? || node.value.actuation.None? then []
    else if node.value.actuation.value != CutPower then [Direct(node.value.actuation.value, id)]
    else [Direct(CutPower, id)] + Losses(nodes, id, Downstream(nodes, id))
  }

  method ApplyActuation(nodes: seq<Node>, id: NodeId) returns (out: seq<Effect>)
    ensures out == EffectsOf(nodes, id)
  {
    var node := NodeById(nodes, id);
    if node.None? || node.value.actuation.None? {
      return [];
    }
    var act := node.value.actuation.value;
    out := [Direct(act, id)];
    if act == CutPower {
      var seen := Walk(nodes, id);
      var losses := ListLosses(nodes, id, seen);
      LossesAgree(nodes, id, seen, Downstream(nodes, id));
      out := out + losses;
    }
  }

  function LostNodes(out: seq<Effect>): (ids: set<NodeId>) {
    set e | e in out && e.DevicePowerLost? :: e.node
  }

  /** A loss is listed for exactly the nodes downstream of the cut. */
  lemma {:induction false} LossesAreTheDead(nodes: seq<Node>, source: NodeId, dead: set<NodeId>, x: NodeId)
    ensures DevicePowerLost(x) in Losses(nodes, source, dead) <==>
            x != source && x in dead && exists n :: n in nodes && n.id == x
    ensures forall e :: e in Losses(nodes, source, dead) ==> e.DevicePowerLost?
  {
    if nodes != [] {
      var front, last := nodes[..|nodes| - 1], nodes[|nodes| - 1];
      LossesAreTheDead(front, source, dead, x);
      assert nodes == front + [last];
    }
  }

  /** With unique ids no loss is listed twice. */
  lemma {:induction false} EachLossOnce(nodes: seq<Node>, source: NodeId, dead: set<NodeId>)
    requires UniqueIds(nodes)
    ensures var out := Losses(nodes, source, dead); forall i, j :: 0 <= i < j < |out| ==> out[i] != out[j]
    ensures |Losses(nodes, source, dead)| == |LostNodes(Losses(nodes, source, dead))|
  {
    if nodes == [] {
      assert LostNodes([]) == {};
    } else {
      var front, last := nodes[..|nodes| - 1], nodes[|nodes| - 1];
      EachLossOnce(front, source, dead);
      LossesAreTheDead(front, source, dead, last.id);
      var shorter := Losses(front, source, dead);
      assert DevicePowerLost(last.id) !in shorter;
      LostNodesPush(shorter, last.id);
      if last.id != source && last.id in dead {
        assert Losses(nodes, source, dead) == shorter + [DevicePowerLost(last.id)];
        assert |LostNodes(shorter) + {last.id}| == |LostNodes(shorter)| + 1;
      } else {
        assert Losses(nodes, source, dead) == shorter;
      }
    }
  }

  lemma LostNodesPush(out: seq<Effect>, x: NodeId)
    ensures LostNodes(out + [DevicePowerLost(x)]) == LostNodes(out) + {x}
    ensures DevicePowerLost(x) !in out ==> x !in LostNodes(out)
  {
    assert (out + [DevicePowerLost(x)])[|out|] == DevicePowerLost(x);
    assert forall e :: e in out + [DevicePowerLost(x)] <==> e in out || e == DevicePowerLost(x);
    assert DevicePowerLost(x) in out + [DevicePowerLost(x)];
    forall y | y in LostNodes(out) + {x}
      ensures y in LostNodes(out + [DevicePowerLost(x)])
    {
      assert DevicePowerLost(y) in out + [DevicePowerLost(x)];
    }
  }

  /** What a cut lists is exactly what lies downstream: each node once when ids are unique. */
  lemma CutListsDownstream(nodes: seq<Node>, source: NodeId)
    ensures LostNodes(Losses(nodes, source, Downstream(nodes, source))) == Downstream(nodes, source)
    ensures UniqueIds(nodes) ==> |Losses(nodes, source, Downstream(nodes, source))| == |Downstream(nodes, source)|
  {
    var down := Downstream(nodes, source);
    var out := Losses(nodes, source, down);
    forall x
      ensures x in LostNodes(out) <==> x in down
    {
      LossesAreTheDead(nodes, source, down, x);
      if x in down {
        assert DevicePowerLost(x) in out;
      }
    }
    if UniqueIds(nodes) {
      EachLossOnce(nodes, source, down);
    }
  }

  /// How the effects land in the world

  const LIGHTS_STUN: real := 1.05

  const CAM_LOOP_DUR: real := 4.0
  const PING_DUR: real := 3.4
  const VAC_TARGET: real := 958.0

  datatype Event =
    | DoorRouted(door: string, delay: real)
    | CameraPinged(laundryView: bool)
    | LightsFlickered(thirdUse: bool)
    | VacuumRouted
    | PowerLost(nodes: nat)

  /** The floor's definition: its light nodes, its doors with the node each one answers to, its cameras. */
  datatype Plan = Plan(lights: set<NodeId>, doors: seq<string>, doorNode: string -> NodeId, cameras: seq<NodeId>)

  datatype Door = Door(id: string, pending: real, routeDelay: real, badgeLogged: bool)

  datatype Vacuum = Vacuum(fallen: bool, active: bool, target: real)

  /** The part of the world that effects reach, and whether the player stands in the laundry. */
  datatype State = State(
    deadNodes: set<NodeId>, flicker: real, stun: real, lightsUses: nat, lightFlickers: nat,
    doors: seq<Door>, doorsHeld: nat, looped: seq<real>, ping: real, inLaundry: bool,
    vacuum: Vacuum, vacuumUsed: bool)

  /** The first of `doors` that answers to `node`. */
  function DoorOf(plan: Plan, doors: seq<string>, node: NodeId): (r: Option<string>)
    ensures r.Some? ==> r.value in doors && plan.doorNode(r.value) == node
    ensures r.None? ==> forall d :: d in doors ==> plan.doorNode(d) != node
  {
    if doors == [] then None
    else if plan.doorNode(doors[0]) == node then Some(doors[0])
    else DoorOf(plan, doors[1..], node)
  }

  /** Where the door of that id stands, or the number of doors. */
  function DoorIndex(doors: seq<Door>, id: string): (i: nat)
    ensures i <= |doors| && (i < |doors| ==> doors[i].id == id) && forall j :: 0 <= j < i ==> doors[j].id != id
  {
    if doors == [] then 0 else if doors[0].id == id then 0 else DoorIndex(doors[1..], id) + 1
  }

  /** Which camera `node` is, or the number of cameras. */
  function CameraIndex(cameras: seq<NodeId>, node: NodeId): (i: nat)
    ensures i <= |cameras| && (i < |cameras| ==> cameras[i] == node) && node !in cameras[..i]
  {
    if cameras == [] then 0
    else if cameras[0] == node then 0
    else
      var i := CameraIndex(cameras[1..], node);
      assert cameras[..i + 1] == [cameras[0]] + cameras[1..][..i];
      i + 1
  }

  /** The door that a hold at `node` reaches. */
  function HeldDoor(plan: Plan, d: State, node: NodeId): (r: Option<nat>)
    ensures r.Some? ==> r.value < |d.doors|
  {
    match DoorOf(plan, plan.doors, node)
    case None => None
    case Some(id) => if DoorIndex(d.doors, id) < |d.doors| then Some(DoorIndex(d.doors, id)) else None
  }

  /** The camera that a loop at `node` reaches. */
  function LoopedCamera(plan: Plan, d: State, node: NodeId): (r: Option<nat>)
    ensures r.Some? ==> r.value < |d.looped|
  {
    var i := CameraIndex(plan.cameras, node);
    if i < |plan.cameras| && i < |d.looped| then Some(i) else None
  }

  function Max(a: real, b: real): real {
    if a < b then b else a
  }

  function Darkened(d: State, duration: real): State {
    d.(flicker := duration, stun := Max(d.stun, LIGHTS_STUN))
  }

  /** One more dead node, and darkness if it was a light. */
  function Unpowered(plan: Plan, d: State, duration: real, id: NodeId): State {
    var d1 := d.(deadNodes := d.deadNodes + {id});
    if id in plan.lights then Darkened(d1, duration) else d1
  }

  /** The world without power at `dead`: dark where one of them was a light, and otherwise as it was. */
  function Felled(plan: Plan, d: State, duration: real, dead: set<NodeId>): State {
    var d1 := d.(deadNodes := d.deadNodes + dead);
    if plan.lights * dead == {} then d1 else Darkened(d1, duration)
  }

  function Landed(plan: Plan, d: State, duration: real, e: Effect): State {
    match e
    case DevicePowerLost(id) => Unpowered(plan, d, duration, id)
    case Direct(CutPower, id) => Unpowered(plan, d, duration, id)
    case Direct(DisableCamera, id) => d.(deadNodes := d.deadNodes + {id})
    case Direct(KillLights, _) =>
      Darkened(d, duration).(lightsUses := d.lightsUses + 1, lightFlickers := d.lightFlickers + 1)
    case Direct(HoldDoor, id) =>
      if HeldDoor(plan, d, id).None? then d
      else
        var i := HeldDoor(plan, d, id).value;
        d.(doors := d.doors[i := d.doors[i].(pending := d.doors[i].routeDelay, badgeLogged := false)],
           doorsHeld := d.doorsHeld + 1)
    case Direct(LoopCamera, id) =>
      if LoopedCamera(plan, d, id).None? then d
      else d.(looped := d.looped[LoopedCamera(plan, d, id).value := CAM_LOOP_DUR], ping := PING_DUR)
    case Direct(RunVacuum, _) =>
      if d.vacuum.fallen then d
      else d.(vacuum := d.vacuum.(active := true, target := VAC_TARGET), vacuumUsed := true)
    case _ => d
  }

  function Raised(plan: Plan, d: State, e: Effect, losses: nat): seq<Event> {
    match e
    case Direct(CutPower, _) => if losses > 0 then [PowerLost(losses)] else []
    case Direct(KillLights, _) => [LightsFlickered(d.lightsUses + 1 == 3)]
    case Direct(HoldDoor, id) =>
      if HeldDoor(plan, d, id).None? then []
      else
        var door := d.doors[HeldDoor(plan, d, id).value];
        [DoorRouted(door.id, door.routeDelay)]
    case Direct(LoopCamera, id) => if LoopedCamera(plan, d, id).None? then [] else [CameraPinged(d.inLaundry)]
    case Direct(RunVacuum, _) => if d.vacuum.fallen then [] else [VacuumRouted]
    case _ => []
  }

  /// What each effect does to the floor

  /** A hold reaches the first door of the plan that answers to the node, as it stands in the run: it waits out
      its own delay with no badge logged, is counted, and reported. Nothing else changes. */
  lemma HoldsOneDoor(plan: Plan, d: State, duration: real, id: NodeId, k: nat, i: nat, losses: nat)
    requires k < |plan.doors| && plan.doorNode(plan.doors[k]) == id
    requires forall j :: 0 <= j < k ==> plan.doorNode(plan.doors[j]) != id
    requires i < |d.doors| && d.doors[i].id == plan.doors[k]
    requires forall j :: 0 <= j < i ==> d.doors[j].id != plan.doors[k]
    ensures var t := Landed(plan, d, duration, Direct(HoldDoor, id));
            && t == d.(doors := t.doors, doorsHeld := d.doorsHeld + 1) && |t.doors| == |d.doors|
            && t.doors[i] == d.doors[i].(pending := d.doors[i].routeDelay, badgeLogged := false)
            && forall j :: 0 <= j < |d.doors| && j != i ==> t.doors[j] == d.doors[j]
    ensures Raised(plan, d, Direct(HoldDoor, id), losses) == [DoorRouted(plan.doors[k], d.doors[i].routeDelay)]
  {
    FirstAnswer(plan, plan.doors, id, k);
  }

  lemma {:induction false} FirstAnswer(plan: Plan, doors: seq<string>, id: NodeId, k: nat)
    requires k < |doors| && plan.doorNode(doors[k]) == id && forall j :: 0 <= j < k ==> plan.doorNode(doors[j]) != id
    ensures DoorOf(plan, doors, id) == Some(doors[k])
  {
    if k > 0 {
      FirstAnswer(plan, doors[1..], id, k - 1);
    }
  }

  /** A loop reaches the first camera of that node, if the run keeps a slot for it: that camera loops, and being
      inside it pings. */
  lemma LoopsOneCamera(plan: Plan, d: State, duration: real, id: NodeId, i: nat, losses: nat)
    requires i < |plan.cameras| && plan.cameras[i] == id && forall j :: 0 <= j < i ==> plan.cameras[j] != id
    ensures var t := Landed(plan, d, duration, Direct(LoopCamera, id));
            if i < |d.looped| then
              && t == d.(looped := t.looped, ping := 3.4) && |t.looped| == |d.looped| && t.looped[i] == 4.0
              && forall j :: 0 <= j < |d.looped| && j != i ==> t.looped[j] == d.looped[j]
            else t == d
    ensures Raised(plan, d, Direct(LoopCamera, id), losses) ==
            if i < |d.looped| then [CameraPinged(d.inLaundry)] else []
  {
    FirstOfItsNode(plan.cameras, id, i);
  }

  lemma {:induction false} FirstOfItsNode(cameras: seq<NodeId>, id: NodeId, i: nat)
    requires i < |cameras| && cameras[i] == id && forall j :: 0 <= j < i ==> cameras[j] != id
    ensures CameraIndex(cameras, id) == i
  {
    if i > 0 {
      FirstOfItsNode(cameras[1..], id, i - 1);
    }
  }

  /** An id that is no door or no camera of the plan is passed over without a word. */
  lemma StraysAreIgnored(plan: Plan, d: State, duration: real, id: NodeId, losses: nat)
    ensures (forall j :: 0 <= j < |plan.doors| ==> plan.doorNode(plan.doors[j]) != id) ==>
              Landed(plan, d, duration, Direct(HoldDoor, id)) == d
              && Raised(plan, d, Direct(HoldDoor, id), losses) == []
    ensures id !in plan.cameras ==>
              Landed(plan, d, duration, Direct(LoopCamera, id)) == d
              && Raised(plan, d, Direct(LoopCamera, id), losses) == []
    ensures forall act :: act in {DisengageLock, CallElevator, MuteSensor} ==>
              Landed(plan, d, duration, Direct(act, id)) == d && Raised(plan, d, Direct(act, id), losses) == []
  {
    var i := CameraIndex(plan.cameras, id);
  }

  /** Killed lights darken the floor for the duration and stun for at least as long as before, are counted twice
      over, and the third use is told apart. A dead camera is only a dead node. */
  lemma LightsAreKilled(plan: Plan, d: State, duration: real, id: NodeId, losses: nat)
    ensures var t := Landed(plan, d, duration, Direct(KillLights, id));
            && t == d.(flicker := duration, stun := t.stun, lightsUses := d.lightsUses + 1,
                       lightFlickers := d.lightFlickers + 1)
            && t.stun >= d.stun && t.stun >= 1.05 && (t.stun == d.stun || t.stun == 1.05)
    ensures Raised(plan, d, Direct(KillLights, id), losses) == [LightsFlickered(d.lightsUses == 2)]
    ensures Landed(plan, d, duration, Direct(DisableCamera, id)) == d.(deadNodes := d.deadNodes + {id})
    ensures Raised(plan, d, Direct(DisableCamera, id), losses) == []
  {
  }

  /** The vacuum runs to its mark, unless it has fallen down the chute: then it is gone for good. */
  lemma VacuumRuns(plan: Plan, d: State, duration: real, id: NodeId, losses: nat)
    ensures var t := Landed(plan, d, duration, Direct(RunVacuum, id));
            if d.vacuum.fallen then t == d
            else t == d.(vacuum := Vacuum(false, true, 958.0), vacuumUsed := true)
    ensures Raised(plan, d, Direct(RunVacuum, id), losses) == if d.vacuum.fallen then [] else [VacuumRouted]
  {
  }

  function LandedAll(plan: Plan, d: State, duration: real, effects: seq<Effect>): State {
    if effects == [] then d
    else Landed(plan, LandedAll(plan, d, duration, effects[..|effects| - 1]), duration, effects[|effects| - 1])
  }

  function RaisedAll(plan: Plan, d: State, duration: real, effects: seq<Effect>, losses: nat): seq<Event> {
    if effects == [] then []
    else
      var front := effects[..|effects| - 1];
      RaisedAll(plan, d, duration, front, losses)
      + Raised(plan, LandedAll(plan, d, duration, front), effects[|effects| - 1], losses)
  }

  function CountLosses(effects: seq<Effect>): (n: nat)
    ensures n <= |effects|
  {
    if effects == [] then 0
    else CountLosses(effects[..|effects| - 1]) + if effects[|effects| - 1].DevicePowerLost? then 1 else 0
  }

  /** The part of the world that effects darken or kill. */
  class Floor {
    const plan: Plan
    var world: State

    constructor (plan: Plan, world: State)
      ensures this.plan == plan && this.world == world
    {
      this.plan, this.world := plan, world;
    }

    method Darken(duration: real)
      modifies this
      ensures world == Darkened(old(world), duration)
    {
      world := world.(flicker := duration);
      world := world.(stun := Max(world.stun, LIGHTS_STUN));
    }

    method Unpower(duration: real, id: NodeId)
      modifies this
      ensures world == Unpowered(plan, old(world), duration, id)
    {
      world := world.(deadNodes := world.deadNodes + {id});
      if id in plan.lights {
        Darken(duration);
      }
    }

    /** The door is found by the node its definition answers to, then among the doors of the run. */
    method HoldDoor(id: NodeId) returns (events: seq<Event>)
      modifies this
      ensures forall duration :: world == Landed(plan, old(world), duration, Direct(Actuation.HoldDoor, id))
      ensures events == Raised(plan, old(world), Direct(Actuation.HoldDoor, id), 0)
    {
      var door := DoorOf(plan, plan.doors, id);
      if door.None? {
        return [];
      }
      var i := 0;
      while i < |world.doors| && world.doors[i].id != door.value
        invariant i <= |world.doors| && forall j :: 0 <= j < i ==> world.doors[j].id != door.value
      {
        i := i + 1;
      }
      if i == |world.doors| {
        return [];
      }
      world := world.(doors := world.doors[i := world.doors[i].(pending := world.doors[i].routeDelay)]);
      world := world.(doors := world.doors[i := world.doors[i].(badgeLogged := false)]);
      world := world.(doorsHeld := world.doorsHeld + 1);
      events := [DoorRouted(world.doors[i].id, world.doors[i].routeDelay)];
    }

    method LoopCamera(id: NodeId) returns (events: seq<Event>)
      modifies this
      ensures forall duration :: world == Landed(plan, old(world), duration, Direct(Actuation.LoopCamera, id))
      ensures events == Raised(plan, old(world), Direct(Actuation.LoopCamera, id), 0)
    {
      var i := 0;
      while i < |plan.cameras| && plan.cameras[i] != id
        invariant i <= |plan.cameras| && id !in plan.cameras[..i]
      {
        i := i + 1;
      }
      if i == |plan.cameras| || i >= |world.looped| {
        return [];
      }
      world := world.(looped := world.looped[i := CAM_LOOP_DUR]);
      world := world.(ping := PING_DUR);
      events := [CameraPinged(world.inLaundry)];
    }

    method Land(duration: real, e: Effect, losses: nat) returns (events: seq<Event>)
      modifies this
      ensures world == Landed(plan, old(world), duration, e)
      ensures events == Raised(plan, old(world), e, losses)
    {
      events := [];
      match e
      case DevicePowerLost(id) => Unpower(duration, id);
      case Direct(CutPower, id) =>
        Unpower(duration, id);
        if losses > 0 {
          events := [PowerLost(losses)];
        }
      case Direct(DisableCamera, id) => world := world.(deadNodes := world.deadNodes + {id});
      case Direct(KillLights, _) =>
        Darken(duration);
        world := world.(lightsUses := world.lightsUses + 1);
        world := world.(lightFlickers := world.lightFlickers + 1);
        events := [LightsFlickered(world.lightsUses == 3)];
      case Direct(HoldDoor, id) => events := HoldDoor(id);
      case Direct(LoopCamera, id) => events := LoopCamera(id);
      case Direct(RunVacuum, _) =>
        if !world.vacuum.fallen {
          world := world.(vacuum := world.vacuum.(active := true, target := VAC_TARGET));
          world := world.(vacuumUsed := true);
          events := [VacuumRouted];
        }
      case _ =>
    }

    method ApplyEffects(duration: real, effects: seq<Effect>) returns (events: seq<Event>)
      modifies this
      ensures world == LandedAll(plan, old(world), duration, effects)
      ensures events == RaisedAll(plan, old(world), duration, effects, CountLosses(effects))
    {
      events := [];
      for i := 0 to |effects|
        invariant world == LandedAll(plan, old(world), duration, effects[..i])
        invariant events == RaisedAll(plan, old(world), duration, effects[..i], CountLosses(effects))
      {
        assert effects[..i + 1][..i] == effects[..i];
        var raised := Land(duration, effects[i], CountLosses(effects));
        events := events + raised;
      }
      assert effects[..|effects|] == effects;
    }

    /** A cut, from the switch to the world: exactly what lies downstream dies with it, and the cascade is
        reported once, by its size, exactly when it felled something. */
    method CutSupply(nodes: seq<Node>, id: NodeId, duration: real) returns (events: seq<Event>)
      requires UniqueIds(nodes)
      requires NodeById(nodes, id).Some? && NodeById(nodes, id).value.actuation == Some(CutPower)
      modifies this
      ensures world == Felled(plan, old(world), duration, {id} + Downstream(nodes, id))
      ensures events == if Downstream(nodes, id) == {} then [] else [PowerLost(|Downstream(nodes, id)|)]
    {
      var effects := ApplyActuation(nodes, id);
      var losses := Losses(nodes, id, Downstream(nodes, id));
      CutLands(plan, world, duration, nodes, id);
      events := ApplyEffects(duration, effects);
    }
  }

  lemma CutAlone(plan: Plan, d: State, duration: real, cut: NodeId, n: nat)
    ensures LandedAll(plan, d, duration, [Direct(CutPower, cut)]) == Unpowered(plan, d, duration, cut)
    ensures RaisedAll(plan, d, duration, [Direct(CutPower, cut)], n) == if n > 0 then [PowerLost(n)] else []
    ensures CountLosses([Direct(CutPower, cut)]) == 0
    ensures plan.lights * {cut} == if cut in plan.lights then {cut} else {}
  {
    assert [Direct(CutPower, cut)][..0] == [];
  }

  lemma OneMoreLoss(plan: Plan, d: State, duration: real, effects: seq<Effect>, x: NodeId, n: nat)
    ensures var more := effects + [DevicePowerLost(x)];
            && LandedAll(plan, d, duration, more) == Unpowered(plan, LandedAll(plan, d, duration, effects), duration, x)
            && RaisedAll(plan, d, duration, more, n) == RaisedAll(plan, d, duration, effects, n)
            && CountLosses(more) == CountLosses(effects) + 1
  {
    hide Unpowered;
    assert (effects + [DevicePowerLost(x)])[..|effects|] == effects;
  }

  lemma CutThenLosses(cut: NodeId, losses: seq<Effect>)
    requires losses != [] && forall e :: e in losses ==> e.DevicePowerLost?
    ensures var front, last := losses[..|losses| - 1], losses[|losses| - 1];
            && last.DevicePowerLost? && losses == front + [DevicePowerLost(last.node)]
            && [Direct(CutPower, cut)] + losses == [Direct(CutPower, cut)] + front + [DevicePowerLost(last.node)]
            && forall e :: e in front ==> e.DevicePowerLost?
  {
    assert losses[|losses| - 1] in losses;
  }

  lemma NoLosses(cut: NodeId)
    ensures [Direct(CutPower, cut)] + [] == [Direct(CutPower, cut)] && LostNodes([]) == {}
  {
  }

  lemma KillsOne(plan: Plan, d: State, duration: real, x: NodeId)
    ensures var t := Unpowered(plan, d, duration, x);
            t == d.(deadNodes := d.deadNodes + {x}, flicker := t.flicker, stun := t.stun)
  {
  }

  lemma {:induction false} LossesKill(plan: Plan, d: State, duration: real, cut: NodeId, losses: seq<Effect>)
    requires forall e :: e in losses ==> e.DevicePowerLost?
    ensures var d1 := LandedAll(plan, d, duration, [Direct(CutPower, cut)] + losses);
            d1 == d.(deadNodes := d.deadNodes + {cut} + LostNodes(losses), flicker := d1.flicker, stun := d1.stun)
  {
    hide LandedAll, LostNodes, Unpowered;
    if losses == [] {
      NoLosses(cut);
      CutAlone(plan, d, duration, cut, 0);
      KillsOne(plan, d, duration, cut);
    } else {
      var front, last := losses[..|losses| - 1], losses[|losses| - 1];
      KillsOne(plan, LandedAll(plan, d, duration, [Direct(CutPower, cut)] + front), duration, last.node);
      CutThenLosses(cut, losses);
      LossesKill(plan, d, duration, cut, front);
      OneMoreLoss(plan, d, duration, [Direct(CutPower, cut)] + front, last.node, 0);
      LostNodesPush(front, last.node);
    }
  }

  lemma {:induction false} LossesAreCounted(plan: Plan, d: State, duration: real, cut: NodeId, losses: seq<Effect>,
                                            n: nat)
    requires forall e :: e in losses ==> e.DevicePowerLost?
    ensures var all := [Direct(CutPower, cut)] + losses;
            CountLosses(all) == |losses| && RaisedAll(plan, d, duration, all, n) == if n > 0 then [PowerLost(n)] else []
  {
    hide CountLosses, RaisedAll, LandedAll;
    if losses == [] {
      NoLosses(cut);
      CutAlone(plan, d, duration, cut, n);
    } else {
      var front, last := losses[..|losses| - 1], losses[|losses| - 1];
      CutThenLosses(cut, losses);
      LossesAreCounted(plan, d, duration, cut, front, n);
      OneMoreLoss(plan, d, duration, [Direct(CutPower, cut)] + front, last.node, n);
    }
  }

  lemma {:induction false} LightsOut(plan: Plan, d: State, duration: real, cut: NodeId, losses: seq<Effect>)
    requires forall e :: e in losses ==> e.DevicePowerLost?
    ensures var d1 := LandedAll(plan, d, duration, [Direct(CutPower, cut)] + losses);
            var hit := plan.lights * ({cut} + LostNodes(losses));
            && (hit != {} ==> d1.flicker == duration && d1.stun == Max(d.stun, LIGHTS_STUN))
            && (hit == {} ==> d1.flicker == d.flicker && d1.stun == d.stun)
  {
    hide LandedAll, LostNodes;
    if losses == [] {
      NoLosses(cut);
      CutAlone(plan, d, duration, cut, 0);
      assert cut in plan.lights ==> cut in plan.lights * ({cut} + LostNodes(losses));
      assert plan.lights * ({cut} + LostNodes(losses)) == plan.lights * {cut};
    } else {
      var front, last := losses[..|losses| - 1], losses[|losses| - 1];
      CutThenLosses(cut, losses);
      LightsOut(plan, d, duration, cut, front);
      OneMoreLoss(plan, d, duration, [Direct(CutPower, cut)] + front, last.node, 0);
      LostNodesPush(front, last.node);
      HitsGrow(plan, {cut} + LostNodes(front), last.node);
      assert {cut} + LostNodes(losses) == {cut} + LostNodes(front) + {last.node};
    }
  }

  lemma HitsGrow(plan: Plan, dead: set<NodeId>, x: NodeId)
    ensures plan.lights * (dead + {x}) == (plan.lights * dead) + if x in plan.lights then {x} else {}
  {
  }

  lemma CutLands(plan: Plan, d: State, duration: real, nodes: seq<Node>, id: NodeId)
    requires UniqueIds(nodes)
    ensures var down := Downstream(nodes, id);
            var all := [Direct(CutPower, id)] + Losses(nodes, id, down);
            var d1 := LandedAll(plan, d, duration, all);
            && d1 == Felled(plan, d, duration, {id} + down)
            && RaisedAll(plan, d, duration, all, CountLosses(all)) == (if down == {} then [] else [PowerLost(|down|)])
  {
    var down := Downstream(nodes, id);
    var losses := Losses(nodes, id, down);
    LossesAreTheDead(nodes, id, down, id);
    CutListsDownstream(nodes, id);
    LossesKill(plan, d, duration, id, losses);
    LossesAreCounted(plan, d, duration, id, losses, |losses|);
    LightsOut(plan, d, duration, id, losses);
  }
}
