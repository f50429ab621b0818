/** An agent's session: a home vantage, a stack of pivots, the trace and the logs left behind. */
module AgentSession {
  import opened Wrappers
  import opened Grounded
  import opened TraceClock
  import PowerCascade

  datatype SessionError = Unresolved | NoRoute | NotPivotable | NoSuchNode | AlreadyThere

  /** The graph a session is played against; routing, segments and name resolution are functions of it. */
  datatype Graph = Graph(nodes: seq<Node>, canReach: (Ip, Ip) -> bool, segmentOf: Ip -> Option<string>,
                         resolve: string -> Option<Ip>)

  datatype Session = Session(vantage: Ip, stack: seq<Ip>, progress: U32, threshold: U32, logs: seq<NodeId>)

  datatype Op = Ssh(host: string) | Hack(id: NodeId) | Exit | Scrub(id: NodeId) | SetVantage(vantage: Ip)

  predicate Pivotable(kind: DeviceKind) {
    kind.Server? || kind.Laptop? || kind.Terminal? || kind.Desktop?
  }

  function TraceCost(security: SecurityLevel): (cost: U32)
    ensures cost >= 5
  {
    match security
    case Open => 5
    case Weak => 10
    case Medium => 20
    case Strong => 40
  }

  /** Each level of security costs twice the one below it. */
  lemma EachLevelDoubles()
    ensures TraceCost(Open) == 5
    ensures TraceCost(Weak) == 2 * TraceCost(Open)
    ensures TraceCost(Medium) == 2 * TraceCost(Weak)
    ensures TraceCost(Strong) == 2 * TraceCost(Medium)
  {
  }

  function VantageIp(s: Session): Ip {
    if s.stack == [] then s.vantage else s.stack[|s.stack| - 1]
  }

  function BounceHops(s: Session): U32 {
    if |s.stack| + 1 <= U32_MAX then |s.stack| + 1 else U32_MAX
  }

  function Traced(s: Session, node: Node): Session {
    s.(progress := Advanced(s.progress, s.threshold, TraceCost(node.security), BounceHops(s)))
  }

  /** What a pivot into `host` meets. */
  function PivotTarget(g: Graph, s: Session, host: string): Result<Node, SessionError> {
    var ip := g.resolve(host);
    if ip.None? then Failure(Unresolved)
    else if ip.value == VantageIp(s) || ip.value == s.vantage || ip.value in s.stack then Failure(AlreadyThere)
    else if !g.canReach(VantageIp(s), ip.value) then Failure(NoRoute)
    else
      var node := NodeByIp(g.nodes, ip.value);
      if node.None? then Failure(NoSuchNode)
      else if !Pivotable(node.value.kind) then Failure(NotPivotable)
      else Success(node.value)
  }

  function Pivoted(s: Session, node: Node): Session {
    Traced(s, node).(stack := s.stack + [node.ip])
  }

  function HackTarget(g: Graph, s: Session, id: NodeId): Result<Node, SessionError> {
    var node := NodeById(g.nodes, id);
    if node.None? then Failure(NoSuchNode)
    else if !g.canReach(VantageIp(s), node.value.ip) then Failure(NoRoute)
    else Success(node.value)
  }

  /** Acting on one's own home segment, from home, is free of trace. */
  predicate IsLocal(g: Graph, s: Session, id: NodeId) {
    s.stack == [] && NodeById(g.nodes, id).Some? && g.segmentOf(s.vantage) == Some(NodeById(g.nodes, id).value.segment)
  }

  function Hacked(g: Graph, s: Session, node: Node, id: NodeId): Session {
    (if IsLocal(g, s, id) then s else Traced(s, node)).(logs := s.logs + [id])
  }

  function Without(logs: seq<NodeId>, id: NodeId): (r: seq<NodeId>)
    ensures id !in r && forall l :: l in r ==> l in logs
  {
    if logs == [] then []
    else Without(logs[..|logs| - 1], id) + if logs[|logs| - 1] == id then [] else [logs[|logs| - 1]]
  }

  /** Scrubbing goes entry by entry: it drops the node's own and leaves the others where they were. */
  lemma {:induction false} WithoutSplits(a: seq<NodeId>, b: seq<NodeId>, id: NodeId)
    ensures Without(a + b, id) == Without(a, id) + Without(b, id)
  {
    if b == [] {
      assert a + b == a;
    } else {
      var front, last := b[..|b| - 1], b[|b| - 1];
      assert b == front + [last] && a + b == (a + front) + [last];
      WithoutSplits(a, front, id);
      WithoutOneMore(a + front, last, id);
      WithoutOneMore(front, last, id);
    }
  }

  lemma WithoutOneMore(logs: seq<NodeId>, l: NodeId, id: NodeId)
    ensures Without(logs + [l], id) == Without(logs, id) + if l == id then [] else [l]
  {
    assert (logs + [l])[..|logs|] == logs;
  }

  lemma {:induction false} WithoutKeepsTheRest(logs: seq<NodeId>, id: NodeId, l: NodeId)
    ensures multiset(Without(logs, id))[l] == if l == id then 0 else multiset(logs)[l]
  {
    if logs != [] {
      var front := logs[..|logs| - 1];
      WithoutKeepsTheRest(front, id, l);
      assert logs == front + [logs[|logs| - 1]];
    }
  }

  function Next(g: Graph, s: Session, op: Op): Session {
    match op
    case Ssh(host) =>
      var node := PivotTarget(g, s, host);
      if node.Success? then Pivoted(s, node.value) else s
    case Hack(id) =>
      var node := HackTarget(g, s, id);
      if node.Success? then Hacked(g, s, node.value, id) else s
    case Exit => if s.stack == [] then s else s.(stack := s.stack[..|s.stack| - 1])
    case Scrub(id) => s.(logs := Without(s.logs, id))
    case SetVantage(vantage) => s.(vantage := vantage, stack := [])
  }

  /** The operations that run the trace clock: a pivot that lands, and a hack away from home. */
  predicate Touches(g: Graph, s: Session, op: Op) {
    match op
    case Ssh(host) => PivotTarget(g, s, host).Success?
    case Hack(id) => HackTarget(g, s, id).Success? && !IsLocal(g, s, id)
    case _ => false
  }

  /** The host an agent acts from. */
  function Standing(vantage: Ip, stack: seq<Ip>): Ip {
    if stack == [] then vantage else stack[|stack| - 1]
  }

  /** A hack that reaches its node is a touch unless the agent stands at its entry host, in the node's own
      segment; a pivot is one if it lands on a reachable workstation or server it does not stand on. */
  lemma TouchesIff(g: Graph, s: Session, op: Op)
    ensures op.Hack? ==>
              (Touches(g, s, op) <==>
                 var node := NodeById(g.nodes, op.id);
                 && node.Some? && g.canReach(Standing(s.vantage, s.stack), node.value.ip)
                 && !(s.stack == [] && g.segmentOf(s.vantage) == Some(node.value.segment)))
    ensures op.Ssh? ==>
              (Touches(g, s, op) <==>
                 var ip := g.resolve(op.host);
                 && ip.Some? && ip.value != s.vantage && ip.value !in s.stack
                 && g.canReach(Standing(s.vantage, s.stack), ip.value)
                 && NodeByIp(g.nodes, ip.value).Some?
                 && NodeByIp(g.nodes, ip.value).value.kind in {Server, Laptop, Terminal, Desktop})
    ensures op.Exit? || op.Scrub? || op.SetVantage? ==> !Touches(g, s, op)
  {
  }

  function Opened(vantage: Ip, threshold: U32): Session {
    Session(vantage, [], 0, threshold, [])
  }

  function After(g: Graph, s: Session, ops: seq<Op>): Session {
    if ops == [] then s else Next(g, After(g, s, ops[..|ops| - 1]), ops[|ops| - 1])
  }

  function TouchCount(g: Graph, s: Session, ops: seq<Op>): nat {
    if ops == [] then 0
    else
      var front := ops[..|ops| - 1];
      TouchCount(g, s, front) + if Touches(g, After(g, s, front), ops[|ops| - 1]) then 1 else 0
  }

  /// The pivot stack

  /** The addresses an agent could ever stand on. */
  function PivotIps(g: Graph): (ips: set<Ip>) {
    set n | n in g.nodes && Pivotable(n.kind) :: n.ip
  }

  predicate Distinct(ips: seq<Ip>) {
    forall i, j :: 0 <= i < j < |ips| ==> ips[i] != ips[j]
  }

  /** The `i`-th pivot is a pivotable host other than the entry, reached from the host below it. */
  predicate Climbed(g: Graph, s: Session, i: nat)
    requires i < |s.stack|
  {
    s.stack[i] in PivotIps(g) && s.stack[i] != s.vantage && g.canReach(Below(s, i), s.stack[i])
  }

  /** Nothing stacked twice, never the entry host, only pivotable hosts, each reached from the one below. */
  predicate StackOk(g: Graph, s: Session) {
    Distinct(s.stack) && forall i :: 0 <= i < |s.stack| ==> Climbed(g, s, i)
  }

  /** The host an agent stood on when it reached its `i`-th pivot. */
  function Below(s: Session, i: nat): Ip
    requires i <= |s.stack|
  {
    if i == 0 then s.vantage else s.stack[i - 1]
  }

  lemma PushKeepsTheStack(g: Graph, s: Session, ip: Ip)
    requires StackOk(g, s) && ip in PivotIps(g) && ip !in s.stack && ip != s.vantage && g.canReach(VantageIp(s), ip)
    ensures StackOk(g, s.(stack := s.stack + [ip]))
  {
    var t := s.(stack := s.stack + [ip]);
    assert Distinct(t.stack);
    forall i | 0 <= i < |t.stack|
      ensures Climbed(g, t, i)
    {
      if i < |s.stack| {
        assert Climbed(g, s, i);
      }
    }
  }

  lemma PopKeepsTheStack(g: Graph, s: Session)
    requires StackOk(g, s) && s.stack != []
    ensures StackOk(g, s.(stack := s.stack[..|s.stack| - 1]))
  {
    var t := s.(stack := s.stack[..|s.stack| - 1]);
    forall i | 0 <= i < |t.stack|
      ensures Climbed(g, t, i)
    {
      assert Climbed(g, s, i);
    }
  }

  predicate SameStack(s: Session, t: Session) {
    s.stack == t.stack && s.vantage == t.vantage
  }

  lemma SameStackKeeps(g: Graph, s: Session, t: Session)
    requires StackOk(g, s) && SameStack(s, t)
    ensures StackOk(g, t)
  {
    forall i | 0 <= i < |t.stack|
      ensures Climbed(g, t, i)
    {
      assert Climbed(g, s, i);
    }
  }

  lemma StepKeepsTheStack(g: Graph, s: Session, op: Op)
    requires StackOk(g, s)
    ensures StackOk(g, Next(g, s, op))
  {
    var t := Next(g, s, op);
    if op.Ssh? && PivotTarget(g, s, op.host).Success? {
      var node := PivotTarget(g, s, op.host).value;
      PushKeepsTheStack(g, s, node.ip);
      SameStackKeeps(g, s.(stack := s.stack + [node.ip]), t);
    } else if op.Exit? && s.stack != [] {
      PopKeepsTheStack(g, s);
    } else if !op.SetVantage? {
      SameStackKeeps(g, s, t);
    }
  }

  lemma {:induction false} StackStaysOk(g: Graph, vantage: Ip, threshold: U32, ops: seq<Op>)
    ensures StackOk(g, After(g, Opened(vantage, threshold), ops))
  {
    if ops != [] {
      StackStaysOk(g, vantage, threshold, ops[..|ops| - 1]);
      StepKeepsTheStack(g, After(g, Opened(vantage, threshold), ops[..|ops| - 1]), ops[|ops| - 1]);
    }
  }

  lemma {:induction false} DistinctFit(stack: seq<Ip>, ips: set<Ip>)
    requires Distinct(stack) && forall i :: 0 <= i < |stack| ==> stack[i] in ips
    ensures |stack| <= |ips|
  {
    if stack != [] {
      var top := stack[|stack| - 1];
      DistinctFit(stack[..|stack| - 1], ips - {top});
      assert |ips - {top}| == |ips| - 1;
    }
  }

  /** No run stacks deeper than there are pivotable addresses, the entry host not among them. */
  lemma DepthIsBounded(g: Graph, vantage: Ip, threshold: U32, ops: seq<Op>)
    ensures var s := After(g, Opened(vantage, threshold), ops);
            |s.stack| <= |PivotIps(g) - {s.vantage}| <= |PivotIps(g)|
  {
    var s := After(g, Opened(vantage, threshold), ops);
    StackStaysOk(g, vantage, threshold, ops);
    forall i | 0 <= i < |s.stack|
      ensures s.stack[i] in PivotIps(g) - {s.vantage}
    {
      assert Climbed(g, s, i);
    }
    DistinctFit(s.stack, PivotIps(g) - {s.vantage});
    if s.vantage in PivotIps(g) {
      assert |PivotIps(g) - {s.vantage}| == |PivotIps(g)| - 1;
    } else {
      assert PivotIps(g) - {s.vantage} == PivotIps(g);
    }
  }

  /// The trace

  /** The least a tracing touch can gain: the cheapest node through the deepest stack. */
  function LeastGain(pivots: nat): (gain: nat)
    ensures gain >= 1
  {
    if 5 / (pivots + 1) == 0 then 1 else 5 / (pivots + 1)
  }

  lemma TouchGains(s: Session, node: Node, pivots: nat)
    requires |s.stack| <= pivots
    ensures var p := Traced(s, node).progress; p == s.threshold || p >= s.progress + LeastGain(pivots)
  {
    var cost, hops := TraceCost(node.security), BounceHops(s);
    GainsTheRate(s.progress, s.threshold, cost, hops);
    DivisionIsMonotone(cost, hops, 5, pivots + 1);
  }

  lemma StepGains(g: Graph, s: Session, op: Op, pivots: nat)
    requires |s.stack| <= pivots && s.progress <= s.threshold
    ensures var t := Next(g, s, op);
            && t.threshold == s.threshold && s.progress <= t.progress <= t.threshold
            && (Touches(g, s, op) ==> t.progress == t.threshold || t.progress >= s.progress + LeastGain(pivots))
            && (!Touches(g, s, op) ==> t.progress == s.progress)
  {
    if op.Ssh? && PivotTarget(g, s, op.host).Success? {
      TouchGains(s, PivotTarget(g, s, op.host).value, pivots);
    } else if op.Hack? && HackTarget(g, s, op.id).Success? {
      TouchGains(s, HackTarget(g, s, op.id).value, pivots);
    }
  }

  /** However it pivots, moves and scrubs, a session that keeps touching cannot stall its trace. */
  lemma {:induction false} PivotingCannotStall(g: Graph, vantage: Ip, threshold: U32, ops: seq<Op>)
    ensures var s := After(g, Opened(vantage, threshold), ops);
            var earned := TouchCount(g, Opened(vantage, threshold), ops) * LeastGain(|PivotIps(g)|);
            && s.threshold == threshold && s.progress <= threshold
            && s.progress >= if earned < threshold then earned else threshold
  {
    if ops != [] {
      var front := ops[..|ops| - 1];
      var s := After(g, Opened(vantage, threshold), front);
      PivotingCannotStall(g, vantage, threshold, front);
      DepthIsBounded(g, vantage, threshold, front);
      StepGains(g, s, ops[|ops| - 1], |PivotIps(g)|);
      OneMore(TouchCount(g, Opened(vantage, threshold), front), LeastGain(|PivotIps(g)|));
    }
  }

  lemma OneMore(n: nat, gain: nat)
    ensures (n + 1) * gain == n * gain + gain
  {
  }

  /** Enough touches always trace the agent, and nothing it does afterwards takes that back. */
  lemma {:induction false} TracedForGood(g: Graph, vantage: Ip, threshold: U32, ops: seq<Op>, more: seq<Op>)
    requires TouchCount(g, Opened(vantage, threshold), ops) * LeastGain(|PivotIps(g)|) >= threshold
    ensures After(g, Opened(vantage, threshold), ops + more).progress == threshold
  {
    hide Next, Touches, TouchCount, LeastGain, PivotIps;
    if more == [] {
      assert ops + more == ops;
      PivotingCannotStall(g, vantage, threshold, ops);
    } else {
      var all := ops + more;
      var front := ops + more[..|more| - 1];
      assert all[..|all| - 1] == front;
      TracedForGood(g, vantage, threshold, ops, more[..|more| - 1]);
      PivotingCannotStall(g, vantage, threshold, front);
      DepthIsBounded(g, vantage, threshold, front);
      StepGains(g, After(g, Opened(vantage, threshold), front), all[|all| - 1], |PivotIps(g)|);
    }
  }

  /** A count of hops past 32 bits shares a price out like the largest one. */
  lemma HopsShareAlike(cost: U32, hops: nat)
    requires 0 < cost <= 40
    ensures Gain(cost, if hops <= U32_MAX then hops else U32_MAX) == Gain(cost, hops)
  {
  }

  /** The trace after a touch of `node` through `hops` hosts. */
  function Charged(progress: nat, threshold: nat, node: Node, hops: nat): nat {
    var sum := progress + Gain(TraceCost(node.security), hops);
    if sum > threshold then threshold else sum
  }

  /// The live session

  class Agent {
    var vantage: Ip
    var stack: seq<Ip>
    const trace: Trace
    var logs: seq<NodeId>

    ghost function View(): Session
      reads this, trace
    {
      Session(vantage, stack, trace.progress, trace.threshold, logs)
    }

    constructor (vantage: Ip, threshold: U32)
      ensures fresh(trace) && View() == Opened(vantage, threshold)
    {
      this.vantage, stack, logs := vantage, [], [];
      trace := new Trace(threshold);
    }

    function ActiveHost(): (ip: Ip)
      reads this, trace
      ensures ip == VantageIp(View())
    {
      if stack == [] then vantage else stack[|stack| - 1]
    }

    function Hops(): (hops: U32)
      reads this, trace
      ensures hops == BounceHops(View())
    {
      if |stack| + 1 <= U32_MAX then |stack| + 1 else U32_MAX
    }

    method Ssh(g: Graph, host: string) returns (r: Result<Ip, SessionError>)
      modifies this, trace
      ensures View() == Next(g, old(View()), Op.Ssh(host))
      ensures var target := PivotTarget(g, old(View()), host);
              r == if target.Success? then Success(target.value.ip) else Failure(target.error)
      ensures r.Failure? ==> View() == old(View())
      ensures r.Success? ==>
                && g.resolve(host) == Some(r.value) && r.value != vantage && r.value !in old(stack)
                && g.canReach(Standing(old(vantage), old(stack)), r.value)
                && stack == old(stack) + [r.value] && vantage == old(vantage) && logs == old(logs)
                && exists n :: n in g.nodes && n.ip == r.value && n.kind in {Server, Laptop, Terminal, Desktop}
                               && trace.progress == Charged(old(trace.progress), trace.threshold, n, |old(stack)| + 1)
    {
      var ip := g.resolve(host);
      if ip.None? {
        return Failure(Unresolved);
      }
      if ip.value == ActiveHost() || ip.value == vantage || ip.value in stack {
        return Failure(AlreadyThere);
      }
      if !g.canReach(ActiveHost(), ip.value) {
        return Failure(NoRoute);
      }
      var node := NodeByIp(g.nodes, ip.value);
      if node.None? {
        return Failure(NoSuchNode);
      }
      if !Pivotable(node.value.kind) {
        return Failure(NotPivotable);
      }
      HopsShareAlike(TraceCost(node.value.security), |stack| + 1);
      trace.Advance(TraceCost(node.value.security), Hops());
      stack := stack + [ip.value];
      r := Success(ip.value);
    }

    method Hack(g: Graph, id: NodeId) returns (r: Result<seq<PowerCascade.Effect>, SessionError>)
      modifies this, trace
      ensures View() == Next(g, old(View()), Op.Hack(id))
      ensures var target := HackTarget(g, old(View()), id);
              r == if target.Success? then Success(PowerCascade.EffectsOf(g.nodes, id)) else Failure(target.error)
      ensures r.Failure? ==> View() == old(View())
      ensures var node := NodeById(g.nodes, id);
              && (r == Failure(NoSuchNode) <==> node.None?)
              && (r == Failure(NoRoute) <==>
                    node.Some? && !g.canReach(Standing(old(vantage), old(stack)), node.value.ip))
              && (r.Success? ==>
                    && node.Some? && stack == old(stack) && vantage == old(vantage) && logs == old(logs) + [id]
                    && (stack == [] && g.segmentOf(vantage) == Some(node.value.segment) ==>
                          trace.progress == old(trace.progress))
                    && (stack != [] || g.segmentOf(vantage) != Some(node.value.segment) ==>
                          && trace.progress == Charged(old(trace.progress), trace.threshold, node.value, |stack| + 1)
                          && (old(trace.progress) < trace.threshold ==> trace.progress > old(trace.progress))))
    {
      var node := NodeById(g.nodes, id);
      if node.None? {
        return Failure(NoSuchNode);
      }
      if !g.canReach(ActiveHost(), node.value.ip) {
        return Failure(NoRoute);
      }
      var local := stack == [] && g.segmentOf(vantage) == Some(node.value.segment);
      if !local {
        HopsShareAlike(TraceCost(node.value.security), |stack| + 1);
        trace.Advance(TraceCost(node.value.security), Hops());
      }
      logs := logs + [id];
      var effects := PowerCascade.ApplyActuation(g.nodes, id);
      r := Success(effects);
    }

    method Exit(ghost g: Graph) returns (popped: bool)
      modifies this
      ensures View() == Next(g, old(View()), Op.Exit) && popped == (old(stack) != [])
      ensures popped ==> exists top :: old(stack) == stack + [top]
      ensures !popped ==> View() == old(View())
    {
      popped := stack != [];
      if popped {
        assert stack == stack[..|stack| - 1] + [stack[|stack| - 1]];
        stack := stack[..|stack| - 1];
      }
    }

    method Scrub(ghost g: Graph, id: NodeId)
      modifies this
      ensures View() == Next(g, old(View()), Op.Scrub(id))
      ensures vantage == old(vantage) && stack == old(stack) && trace.progress == old(trace.progress)
      ensures forall l: NodeId :: multiset(logs)[l] == if l == id then 0 else multiset(old(logs))[l]
    {
      var kept := [];
      for i := 0 to |logs|
        invariant kept == Without(logs[..i], id)
      {
        assert logs[..i + 1][..i] == logs[..i];
        if logs[i] != id {
          kept := kept + [logs[i]];
        }
      }
      assert logs[..|logs|] == logs;
      forall l: NodeId
        ensures multiset(kept)[l] == if l == id then 0 else multiset(logs)[l]
      {
        WithoutKeepsTheRest(logs, id, l);
      }
      logs := kept;
    }

    method SetVantage(ghost g: Graph, vantage: Ip)
      modifies this
      ensures View() == Next(g, old(View()), Op.SetVantage(vantage))
    {
      this.vantage, stack := vantage, [];
    }
  }
}
