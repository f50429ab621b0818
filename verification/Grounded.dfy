/** The grounded network as data: nodes, the host each one answers at, and what each one draws power from. */
module Grounded {
  import opened Wrappers

  type NodeId = string
  type Ip = nat

  datatype Actuation =
    | HoldDoor | DisengageLock | LoopCamera | DisableCamera | CallElevator
    | KillLights | CutPower | MuteSensor | RunVacuum

  datatype SecurityLevel = Open | Weak | Medium | Strong

  datatype DeviceKind =
    | Server | Laptop | Terminal | Desktop | Router | Switch | AccessPoint | OtherDevice

  datatype Node = Node(id: NodeId, ip: Ip, segment: string, kind: DeviceKind, security: SecurityLevel,
                       actuation: Option<Actuation>, deps: seq<NodeId>)

  /** The first node of that id. */
  function NodeById(nodes: seq<Node>, id: NodeId): (r: Option<Node>)
    ensures r.Some? ==> r.value in nodes && r.value.id == id
    ensures r.None? ==> forall n :: n in nodes ==> n.id != id
  {
    if nodes == [] then None
    else if nodes[0].id == id then Some(nodes[0])
    else NodeById(nodes[1..], id)
  }

  /** The first node answering at that address. */
  function NodeByIp(nodes: seq<Node>, ip: Ip): (r: Option<Node>)
    ensures r.Some? ==> r.value in nodes && r.value.ip == ip
    ensures r.None? ==> forall n :: n in nodes ==> n.ip != ip
  {
    if nodes == [] then None
    else if nodes[0].ip == ip then Some(nodes[0])
    else NodeByIp(nodes[1..], ip)
  }

  ghost predicate UniqueIds(nodes: seq<Node>) {
    forall i, j :: 0 <= i < j < |nodes| ==> nodes[i].id != nodes[j].id
  }
}
