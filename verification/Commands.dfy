/** Typed commands, the held-button bitset and `fold`, the seam every runner shares. */
module Commands {

  /// Held buttons

  datatype Button = Left | Right | Crouch | Sprint | Interact

  /** The discriminant of a button is its flag in the bitset. */
  function Flag(b: Button): bv8 {
    match b
    case Left => 1
    case Right => 2
    case Crouch => 4
    case Sprint => 8
    case Interact => 16
  }

  /** A byte of held flags. Three of the eight bits belong to no button. */
  datatype Buttons = Buttons(bits: bv8) {
    predicate Has(b: Button) {
      bits & Flag(b) != 0
    }

    function Set(b: Button, down: bool): (r: Buttons)
      ensures r.Has(b) == down
      ensures forall other: Button :: other != b ==> r.Has(other) == Has(other)
      ensures r.Clean() == Clean()
    {
      if down then Buttons(bits | Flag(b)) else Buttons(bits & !Flag(b))
    }

    /** Only button bits are set. Every held set the program builds has this. */
    predicate Clean() {
      bits & 0xE0 == 0
    }
  }

  const NO_BUTTONS := Buttons(0)

  lemma NothingIsHeldByDefault()
    ensures NO_BUTTONS.Clean()
    ensures forall b: Button :: !NO_BUTTONS.Has(b)
  {
    forall b: Button
      ensures !NO_BUTTONS.Has(b)
    {
      match b case Left => case Right => case Crouch => case Sprint => case Interact =>
    }
  }

  lemma FlagsDetermineBits(x: bv8, y: bv8)
    requires x & 0xE0 == 0 && y & 0xE0 == 0
    requires (x & 1 != 0) == (y & 1 != 0)
    requires (x & 2 != 0) == (y & 2 != 0)
    requires (x & 4 != 0) == (y & 4 != 0)
    requires (x & 8 != 0) == (y & 8 != 0)
    requires (x & 16 != 0) == (y & 16 != 0)
    ensures x == y
  {
  }

  /** Two clean held sets with the same buttons are the same byte. */
  lemma HeldSetsAreExtensional(x: Buttons, y: Buttons)
    requires x.Clean() && y.Clean()
    requires forall b: Button :: x.Has(b) == y.Has(b)
    ensures x == y
  {
    assert x.Has(Left) == y.Has(Left) && x.Has(Right) == y.Has(Right) && x.Has(Crouch) == y.Has(Crouch);
    assert x.Has(Sprint) == y.Has(Sprint) && x.Has(Interact) == y.Has(Interact);
    FlagsDetermineBits(x.bits, y.bits);
  }

  /// Commands

  datatype ActionKind = Camera | Door | Vacuum | Lights

  datatype PivotTarget = Bridge | IspOps | GridJump

  datatype ExtractMethod = ServiceExit | LaundryChute

  datatype FailReason = Caught | Partition | Lockdown | Traced

  datatype SignalSeat = SignalInfiltrator | SignalHacker

  datatype WireEnds = WireEnds(source: nat, sourcePort: nat, target: nat, targetPort: nat)

  datatype SignalOp =
    | Wire(issuer: SignalSeat, ends: WireEnds)
    | Cut(issuer: SignalSeat, ends: WireEnds)
    | Invert(issuer: SignalSeat, ends: WireEnds)
    | Reprogram(issuer: SignalSeat, relay: nat, gate: nat)

  datatype Command =
    | SetButton(button: Button, down: bool)
    | Jump
    | InteractPress
    | ThrowUsb
    | Uplink(kind: ActionKind)
    | Pivot(target: PivotTarget)
    | Unpivot
    | NetSsh(sshNode: nat)
    | NetHack(hackNode: nat)
    | Signal(op: SignalOp)
    | ForceCrisis
    | ForceExtract(how: ExtractMethod)
    | ForceFail(reason: FailReason)
    | Pause(on: bool)
    | Restart

  datatype Edge = JumpUp | InteractEdge | Throw

  datatype TickInput = TickInput(buttons: Buttons, edges: seq<Edge>, immediates: seq<Command>)

  /// What a command stream means

  /** The edge a command stands for, if it is one. */
  function EdgeOf(c: Command): seq<Edge> {
    match c
    case Jump => [JumpUp]
    case InteractPress => [InteractEdge]
    case ThrowUsb => [Throw]
    case _ => []
  }

  predicate IsImmediate(c: Command) {
    !c.SetButton? && !c.Jump? && !c.InteractPress? && !c.ThrowUsb?
  }

  function EdgesOf(cmds: seq<Command>): seq<Edge> {
    if cmds == [] then [] else EdgesOf(cmds[..|cmds| - 1]) + EdgeOf(cmds[|cmds| - 1])
  }

  function ImmediatesOf(cmds: seq<Command>): seq<Command> {
    if cmds == [] then []
    else
      var last := cmds[|cmds| - 1];
      ImmediatesOf(cmds[..|cmds| - 1]) + (if IsImmediate(last) then [last] else [])
  }

  function Press(held: Buttons, c: Command): Buttons {
    if c.SetButton? then held.Set(c.button, c.down) else held
  }

  function HeldAfter(cmds: seq<Command>, held: Buttons): Buttons {
    if cmds == [] then held else Press(HeldAfter(cmds[..|cmds| - 1], held), cmds[|cmds| - 1])
  }

  function InputOf(cmds: seq<Command>, held: Buttons): TickInput {
    TickInput(HeldAfter(cmds, held), EdgesOf(cmds), ImmediatesOf(cmds))
  }

  /// What the queues hold, position by position

  function Count(cmds: seq<Command>, p: Command -> bool): (n: nat)
    ensures n <= |cmds|
  {
    if cmds == [] then 0 else Count(cmds[..|cmds| - 1], p) + if p(cmds[|cmds| - 1]) then 1 else 0
  }

  predicate AsksForEdge(c: Command) {
    c == Jump || c == InteractPress || c == ThrowUsb
  }

  predicate AsksAtOnce(c: Command) {
    !c.SetButton? && !AsksForEdge(c)
  }

  /** Each edge command is answered by its own kind of edge, in its own place in the queue. */
  predicate EdgesAnswer(cmds: seq<Command>, edges: seq<Edge>) {
    && |edges| == Count(cmds, AsksForEdge)
    && forall i :: 0 <= i < |cmds| && AsksForEdge(cmds[i]) ==>
         var k := Count(cmds[..i], AsksForEdge);
         k < |edges| && (cmds[i] == Jump <==> edges[k] == JumpUp)
         && (cmds[i] == InteractPress <==> edges[k] == InteractEdge) && (cmds[i] == ThrowUsb <==> edges[k] == Throw)
  }

  /** The immediates are the remaining commands that hold no button, as they stand in the stream. */
  predicate RestInOrder(cmds: seq<Command>, immediates: seq<Command>) {
    && |immediates| == Count(cmds, AsksAtOnce)
    && forall i :: 0 <= i < |cmds| && AsksAtOnce(cmds[i]) ==>
         var k := Count(cmds[..i], AsksAtOnce);
         k < |immediates| && immediates[k] == cmds[i]
  }

  lemma CountOneMore(front: seq<Command>, last: Command, p: Command -> bool)
    ensures Count(front + [last], p) == Count(front, p) + if p(last) then 1 else 0
    ensures forall i :: 0 <= i <= |front| ==> (front + [last])[..i] == front[..i]
  {
    assert (front + [last])[..|front|] == front;
  }

  lemma AnswersOneMore(front: seq<Command>, last: Command, edges: seq<Edge>)
    requires EdgesAnswer(front, edges)
    ensures EdgesAnswer(front + [last], edges + EdgeOf(last))
  {
    hide Count;
    CountOneMore(front, last, AsksForEdge);
    assert front[..|front|] == front;
  }

  lemma RestOneMore(front: seq<Command>, last: Command, immediates: seq<Command>)
    requires RestInOrder(front, immediates)
    ensures RestInOrder(front + [last], immediates + if IsImmediate(last) then [last] else [])
  {
    hide Count;
    CountOneMore(front, last, AsksAtOnce);
    assert front[..|front|] == front;
  }

  lemma {:induction false} QueuesFollowTheStream(cmds: seq<Command>)
    ensures EdgesAnswer(cmds, EdgesOf(cmds)) && RestInOrder(cmds, ImmediatesOf(cmds))
  {
    if cmds != [] {
      hide EdgesAnswer, RestInOrder, EdgeOf;
      var front, last := cmds[..|cmds| - 1], cmds[|cmds| - 1];
      QueuesFollowTheStream(front);
      AnswersOneMore(front, last, EdgesOf(front));
      RestOneMore(front, last, ImmediatesOf(front));
      assert cmds == front + [last];
    } else {
      NothingFollows();
    }
  }

  lemma NothingFollows()
    ensures EdgesAnswer([], []) && RestInOrder([], [])
  {
  }

  /** As many edges of a kind as commands that ask for it. */
  predicate EdgesMatch(edges: seq<Edge>, cmds: seq<Command>) {
    && multiset(edges)[JumpUp] == multiset(cmds)[Jump]
    && multiset(edges)[InteractEdge] == multiset(cmds)[InteractPress]
    && multiset(edges)[Throw] == multiset(cmds)[ThrowUsb]
  }

  lemma OneEdgeMore(edges: seq<Edge>, cmds: seq<Command>, c: Command)
    requires EdgesMatch(edges, cmds)
    ensures EdgesMatch(edges + EdgeOf(c), cmds + [c])
  {
    assert multiset(edges + EdgeOf(c)) == multiset(edges) + multiset(EdgeOf(c));
    assert multiset(cmds + [c]) == multiset(cmds) + multiset{c};
  }

  lemma EdgesOfMore(front: seq<Command>, last: Command)
    ensures EdgesOf(front + [last]) == EdgesOf(front) + EdgeOf(last)
  {
    assert (front + [last])[..|front|] == front;
  }

  lemma {:induction false} EdgesAreCounted(cmds: seq<Command>)
    ensures EdgesMatch(EdgesOf(cmds), cmds)
  {
    hide EdgesMatch, EdgeOf, EdgesOf;
    if cmds == [] {
      NothingToMatch();
    } else {
      var front, last := cmds[..|cmds| - 1], cmds[|cmds| - 1];
      assert cmds == front + [last];
      EdgesAreCounted(front);
      OneEdgeMore(EdgesOf(front), front, last);
      EdgesOfMore(front, last);
    }
  }

  lemma NothingToMatch()
    ensures EdgesOf([]) == [] && EdgesMatch([], [])
  {
  }

  /** `fold`: one pass over the stream, pushing edges and immediates and updating the held set. */
  method Fold(cmds: seq<Command>, held: Buttons) returns (input: TickInput, held': Buttons)
    ensures input == InputOf(cmds, held)
    ensures held' == HeldAfter(cmds, held) == input.buttons
    ensures EdgesAnswer(cmds, input.edges) && RestInOrder(cmds, input.immediates)
    ensures EdgesMatch(input.edges, cmds)
    ensures forall b: Button :: held'.Has(b) == var i := LastSet(cmds, b); if i < 0 then held.Has(b) else cmds[i].down
  {
    var edges, immediates := [], [];
    held' := held;
    for i := 0 to |cmds|
      invariant edges == EdgesOf(cmds[..i])
      invariant immediates == ImmediatesOf(cmds[..i])
      invariant held' == HeldAfter(cmds[..i], held)
    {
      assert cmds[..i + 1][..i] == cmds[..i];
      match cmds[i]
      case SetButton(button, down) => held' := held'.Set(button, down);
      case Jump => edges := edges + [JumpUp];
      case InteractPress => edges := edges + [InteractEdge];
      case ThrowUsb => edges := edges + [Throw];
      case _ => immediates := immediates + [cmds[i]];
    }
    assert cmds[..|cmds|] == cmds;
    input := TickInput(held', edges, immediates);
    QueuesFollowTheStream(cmds);
    EdgesAreCounted(cmds);
    forall b: Button
      ensures held'.Has(b) == var i := LastSet(cmds, b); if i < 0 then held.Has(b) else cmds[i].down
    {
      LastWriteWins(cmds, held, b);
    }
  }

  lemma {:induction false} HeldStaysClean(cmds: seq<Command>, held: Buttons)
    requires held.Clean()
    ensures HeldAfter(cmds, held).Clean()
  {
    if cmds != [] {
      HeldStaysClean(cmds[..|cmds| - 1], held);
    }
  }

  /** The index of the last command of the stream that sets `b`, or -1. */
  function LastSet(cmds: seq<Command>, b: Button): (i: int)
    ensures -1 <= i < |cmds|
    ensures i >= 0 ==> cmds[i].SetButton? && cmds[i].button == b
    ensures forall j :: i < j < |cmds| ==> !(cmds[j].SetButton? && cmds[j].button == b)
  {
    if cmds == [] then -1
    else
      var n := |cmds| - 1;
      if cmds[n].SetButton? && cmds[n].button == b then n else LastSet(cmds[..n], b)
  }

  /** A button is held after a stream exactly as its last write says, or as before when nothing wrote it. */
  lemma {:induction false} LastWriteWins(cmds: seq<Command>, held: Buttons, b: Button)
    ensures var i := LastSet(cmds, b);
            HeldAfter(cmds, held).Has(b) == if i < 0 then held.Has(b) else cmds[i].down
  {
    if cmds != [] {
      LastWriteWins(cmds[..|cmds| - 1], held, b);
    }
  }

  /** Folding two streams one after the other is folding their concatenation: the held set ... */
  lemma {:induction false} HeldIsSequential(a: seq<Command>, b: seq<Command>, held: Buttons)
    ensures HeldAfter(a + b, held) == HeldAfter(b, HeldAfter(a, held))
  {
    if b == [] {
      assert a + b == a;
    } else {
      assert (a + b)[..|a + b| - 1] == a + b[..|b| - 1];
      HeldIsSequential(a, b[..|b| - 1], held);
    }
  }

  /** ... the queued edges ... */
  lemma {:induction false} EdgesAreSequential(a: seq<Command>, b: seq<Command>)
    ensures EdgesOf(a + b) == EdgesOf(a) + EdgesOf(b)
  {
    if b == [] {
      assert a + b == a;
    } else {
      var front, last := b[..|b| - 1], b[|b| - 1];
      hide EdgeOf;
      assert (a + b)[..|a + b| - 1] == a + front && (a + b)[|a + b| - 1] == last;
      EdgesAreSequential(a, front);
      assert EdgesOf(a) + (EdgesOf(front) + EdgeOf(last)) == EdgesOf(a) + EdgesOf(front) + EdgeOf(last);
    }
  }

  /** ... and the immediates. */
  lemma {:induction false} ImmediatesAreSequential(a: seq<Command>, b: seq<Command>)
    ensures ImmediatesOf(a + b) == ImmediatesOf(a) + ImmediatesOf(b)
  {
    if b == [] {
      assert a + b == a;
    } else {
      var front, last := b[..|b| - 1], b[|b| - 1];
      assert (a + b)[..|a + b| - 1] == a + front && (a + b)[|a + b| - 1] == last;
      ImmediatesAreSequential(a, front);
    }
  }
}
