/** Two live seats over an ordered relay that keeps no history: every action either seat can take,
    including dying, rejoining as a fresh process, and resyncing from the survivor. */
module Netplay {
  import opened Wrappers
  import opened Commands
  import opened Envelope
  import opened Headless
  import opened Lockstep
  import opened Streams
  import opened SeatInvariant

  /** A seat's process: running its frame loop or holding the run open for a lost peer, gone, waiting for
      a resync as a fresh process, or stopped by a protocol error. */
  datatype Proc =
    | Up(core: Core, holding: bool)
    | Down
    | Joining
    | Crashed(error: NetError)

  /** `sampled` is bookkeeping, not program state: the commands this seat sampled for each tick, less
      those that were un-sampled by a loss because no commit for them arrived. */
  datatype Side = Side(role: Role, inputDelay: nat, proc: Proc, inbox: seq<Msg>, sampled: History)

  datatype World = World(infiltrator: Side, hacker: Side) {
    function Get(r: Role): Side {
      if r == Infiltrator then infiltrator else hacker
    }

    function Put(r: Role, mine: Side, theirs: Side): World {
      if r == Infiltrator then World(mine, theirs) else World(theirs, mine)
    }
  }

  /** `Silence` is the grace period running out on a blocked seat; `Notice` is a departure notice of an
      earlier process of the peer, arriving at any later moment. */
  datatype Action =
    | Pump(feed: nat -> seq<Command>)
    | Deliver
    | Advance
    | Silence
    | Notice
    | Die(kept: nat, noticed: bool)
    | Rejoin

  datatype Move = Move(role: Role, action: Action)

  /// Actions

  /** The relay delivers to members only: a seat that is gone receives nothing. */
  function Send(to: Side, msgs: seq<Msg>): Side {
    if to.proc.Up? || to.proc.Joining? then to.(inbox := to.inbox + msgs) else to
  }

  function Take(h: History, n: nat): History {
    if n <= |h| then h[..n] else h
  }

  function DoPump(x: Side, y: Side, feed: nat -> seq<Command>): (Side, Side)
    requires x.proc.Up?
  {
    var c := x.proc.core;
    (x.(proc := Up(Pumped(c, feed), false), sampled := x.sampled + Fed(feed, c.nextSample, SampleEnd(c))),
     Send(y, Msgs(PumpOutput(c, feed))))
  }

  /** The first resync of an inbox and what follows it. */
  function FirstResync(q: seq<Msg>): Option<(Resync, seq<Msg>)> {
    if q == [] then None
    else if q[0].ResyncMsg? then Some((q[0].resync, q[1..]))
    else FirstResync(q[1..])
  }

  /** A fresh process with no hand-off on its way yet. */
  predicate Awaiting(x: Side) {
    x.proc.Joining? && FirstResync(x.inbox).None?
  }

  /** A rejoin hello: prune the peer's uncommitted commands, ship the resync, and play on. The peer's next
      process will adopt the first resync it gets, and with it the history that one speaks of. */
  function DoResync(g: Game, x: Side, y: Side): (Side, Side)
    requires x.proc.Up?
  {
    var c := OnPeerLost(x.proc.core);
    var y' := Send(y, [ResyncMsg(MakeResync(g, c))]);
    (x.(proc := Up(c, false)), if Awaiting(y) then y'.(sampled := Take(y.sampled, c.peerNext)) else y')
  }

  function Stepped(x: Side, r: Result<Core, NetError>): Side {
    match r
    case Success(c) => x.(proc := Up(c, false))
    case Failure(e) => x.(proc := Crashed(e))
  }

  /** One broadcast at a running seat. While holding for a lost peer everything but a hello is dropped. */
  function DoReceive(g: Game, x: Side, y: Side, m: Msg): (Side, Side)
    requires x.proc.Up?
  {
    var c := x.proc.core;
    if x.proc.holding then
      if m.RejoinHello? then DoResync(g, x, y) else (x, y)
    else
      match m
      case Cmd(at, cmd) => (Stepped(x, OnPeerCommand(c, at, cmd)), y)
      case Commit(through) => (Stepped(x, OnPeerCommit(c, through)), y)
      case PeerLeft => (x.(proc := Up(OnPeerLost(c), true)), y)
      case RejoinHello => DoResync(g, x, y)
      case ResyncMsg(_) => (x, y)
  }

  /** A joining seat drops everything up to the peer's resync. */
  function DoAwait(g: Game, x: Side, m: Msg): Side
    requires x.proc.Joining?
  {
    if m.ResyncMsg? && m.resync.role != x.role then Stepped(x, AdoptResync(g, x.role, x.inputDelay, m.resync)) else x
  }

  function DoDeliver(g: Game, x: Side, y: Side): (Side, Side) {
    if x.inbox == [] then (x, y)
    else
      var rest := x.(inbox := x.inbox[1..]);
      match x.proc
      case Up(_, _) => DoReceive(g, rest, y, x.inbox[0])
      case Joining => (DoAwait(g, rest, x.inbox[0]), y)
      case _ => (x, y)
  }

  /** The process is gone. Its messages from `kept` on never reach the peer, which may or may not be told. */
  function DoDie(x: Side, y: Side, kept: nat, noticed: bool): (Side, Side) {
    (x.(proc := Down, inbox := []),
     Send(y.(inbox := y.inbox[..Min(kept, |y.inbox|)]), if noticed then [PeerLeft] else []))
  }

  function DoRejoin(x: Side, y: Side): (Side, Side) {
    (x.(proc := Joining, inbox := []), Send(y, [RejoinHello]))
  }

  function Held(x: Side): Side
    requires x.proc.Up?
  {
    x.(proc := Up(OnPeerLost(x.proc.core), true))
  }

  function Act(g: Game, x: Side, y: Side, a: Action): (Side, Side) {
    match a
    case Pump(feed) => if x.proc.Up? && !x.proc.holding then DoPump(x, y, feed) else (x, y)
    case Deliver => DoDeliver(g, x, y)
    case Advance =>
      if x.proc.Up? && !x.proc.holding then (x.(proc := Up(Advanced(g, x.proc.core), false)), y) else (x, y)
    case Silence => if x.proc.Up? && !x.proc.holding && x.proc.core.BlockedOnPeer() then (Held(x), y) else (x, y)
    case Notice => if x.proc.Up? then (Held(x), y) else (x, y)
    case Die(kept, noticed) => if x.proc.Up? || x.proc.Joining? then DoDie(x, y, kept, noticed) else (x, y)
    case Rejoin => if x.proc.Down? then DoRejoin(x, y) else (x, y)
  }

  function Next(g: Game, w: World, m: Move): World {
    var (x, y) := Act(g, w.Get(m.role), w.Get(Other(m.role)), m.action);
    w.Put(m.role, x, y)
  }

  function RunMoves(g: Game, w: World, moves: seq<Move>): World {
    if moves == [] then w else Next(g, RunMoves(g, w, moves[..|moves| - 1]), moves[|moves| - 1])
  }

  /** The one thing a run may not do: rejoin while a commit of an earlier process is queued at the peer
      behind a hello that is still to be answered. */
  predicate Allowed(w: World, m: Move) {
    m.action.Rejoin? && w.Get(m.role).proc.Down? ==> !CommitBehindHello(w.Get(Other(m.role)).inbox)
  }

  predicate AllowedRun(g: Game, w: World, moves: seq<Move>) {
    forall i :: 0 <= i < |moves| ==> Allowed(RunMoves(g, w, moves[..i]), moves[i])
  }

  function FreshSide(u: Setup, role: Role, inputDelay: nat): Side {
    Side(role, inputDelay, Up(NewCore(role, inputDelay, u.maxSteps, u.start), false), [], [])
  }

  function FreshWorld(u: Setup, delayI: nat, delayH: nat): World {
    World(FreshSide(u, Infiltrator, delayI), FreshSide(u, Hacker, delayH))
  }
}
