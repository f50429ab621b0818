/** Every allowed run of the two seats keeps one system invariant, losses and resyncs included. */
module NetplaySafety {
  import opened Wrappers
  import opened Commands
  import opened Envelope
  import opened Headless
  import opened Lockstep
  import opened Streams
  import opened SeatInvariant
  import opened Netplay

  /// The invariant

  /** A core that is in play: the one of a running seat, or the one a joining seat will adopt from the
      hand-off on its way, with the messages it has still to read. */
  datatype Live = Live(core: Core, holding: bool, queue: seq<Msg>)

  function LiveOf(g: Game, x: Side): Option<Live> {
    match x.proc
    case Up(c, holding) => Some(Live(c, holding, x.inbox))
    case Joining =>
      if FirstResync(x.inbox).None? then None
      else
        var (r, post) := FirstResync(x.inbox).value;
        match AdoptResync(g, x.role, x.inputDelay, r) {
          case Success(c) => Some(Live(c, false, post))
          case Failure(_) => None
        }
    case _ => None
  }

  /** How a seat looks to its peer: in play, a fresh process without a hand-off, or gone. */
  datatype Presence = Here | Returning | Gone

  function PresenceOf(g: Game, x: Side): Presence {
    if LiveOf(g, x).Some? then Here else if x.proc.Joining? then Returning else Gone
  }

  /** What can be queued from a seat. One in play sends commits only behind its last hello; one that is
      returning has sent that hello last, and no commit is queued behind any of its hellos. */
  predicate QueueFrom(p: Presence, q: seq<Msg>) {
    match p
    case Here => CommitsLast(q) && NoticesAnswered(q)
    case Returning => !CommitBehindHello(q) && q != [] && q[|q| - 1].RejoinHello?
    case Gone => !CommitBehindHello(q) || CommitsLast(q)
  }

  /** A core in play stands where the two histories put it, and its queue leads to the rest of them. */
  ghost predicate LiveOk(u: Setup, l: Live, role: Role, inputDelay: nat, mine: History, theirs: History, p: Presence) {
    && l.core.role == role && l.core.inputDelay == inputDelay
    && CoreOk(u, l.core, mine, theirs)
    && Stream(ViewOf(l.core), l.holding, l.queue, theirs, l.core.step, u.maxSteps, p.Here?)
    && NoticesInOrder(l.queue)
    && QueueFrom(p, l.queue)
  }

  /** A seat, against its peer's history and presence. A hand-off on its way can always be adopted. */
  ghost predicate SeatOk(u: Setup, x: Side, theirs: History, p: Presence) {
    && !x.proc.Crashed?
    && (x.proc.Joining? ==> Awaiting(x) || LiveOf(u.game, x).Some?)
    && (LiveOf(u.game, x).Some? ==> LiveOk(u, LiveOf(u.game, x).value, x.role, x.inputDelay, x.sampled, theirs, p))
  }

  ghost predicate PairOk(u: Setup, x: Side, y: Side) {
    && y.role == Other(x.role)
    && SeatOk(u, x, y.sampled, PresenceOf(u.game, y))
    && SeatOk(u, y, x.sampled, PresenceOf(u.game, x))
  }

  ghost predicate WorldOk(u: Setup, w: World) {
    w.infiltrator.role == Infiltrator && PairOk(u, w.infiltrator, w.hacker)
  }

  lemma FreshWorldOk(u: Setup, delayI: nat, delayH: nat)
    ensures WorldOk(u, FreshWorld(u, delayI, delayH))
  {
    NewCoreOk(u, Infiltrator, delayI);
    NewCoreOk(u, Hacker, delayH);
  }

  lemma RunningIsOk(u: Setup, x: Side, y: Side)
    requires PairOk(u, x, y) && x.proc.Up?
    ensures x.proc.core.role == x.role && CoreOk(u, x.proc.core, x.sampled, y.sampled)
  {
    hide CoreOk, Stream;
  }

  /// Inboxes

  predicate NoResync(q: seq<Msg>) {
    forall i :: 0 <= i < |q| ==> !q[i].ResyncMsg?
  }

  lemma {:induction false} FirstResyncOfMore(q: seq<Msg>, more: seq<Msg>)
    ensures FirstResync(q).Some? ==>
              FirstResync(q + more) == Some((FirstResync(q).value.0, FirstResync(q).value.1 + more))
    ensures FirstResync(q).None? ==> FirstResync(q + more) == FirstResync(more)
  {
    if q == [] {
      assert q + more == more;
    } else {
      assert (q + more)[0] == q[0] && (q + more)[1..] == q[1..] + more;
      if !q[0].ResyncMsg? {
        FirstResyncOfMore(q[1..], more);
      }
    }
  }

  lemma {:induction false} NoFirstResync(q: seq<Msg>)
    requires NoResync(q)
    ensures FirstResync(q).None?
  {
    if q != [] {
      NoFirstResync(q[1..]);
    }
  }

  /** What is sent to a seat in play joins its queue. */
  lemma SendToLive(g: Game, y: Side, msgs: seq<Msg>)
    requires LiveOf(g, y).Some?
    ensures LiveOf(g, Send(y, msgs)) == Some(LiveOf(g, y).value.(queue := LiveOf(g, y).value.queue + msgs))
  {
    if y.proc.Joining? {
      FirstResyncOfMore(y.inbox, msgs);
    }
  }

  /** What is sent to any other seat changes nothing unless it is a hand-off. */
  lemma SendToNobody(g: Game, y: Side, msgs: seq<Msg>)
    requires LiveOf(g, y).None? && (y.proc.Joining? ==> Awaiting(y)) && NoResync(msgs)
    ensures var y' := Send(y, msgs); LiveOf(g, y').None? && (y'.proc.Joining? ==> Awaiting(y'))
  {
    FirstResyncOfMore(y.inbox, msgs);
    NoFirstResync(msgs);
  }

  /// Shapes

  /** Data and strays keep the shape of a queue whose sender is in play. */
  lemma ShapeOfMore(q: seq<Msg>, more: seq<Msg>)
    requires QueueFrom(Here, q) && NoticesInOrder(q)
    requires forall i :: 0 <= i < |more| ==> IsData(more[i]) || more[i].ResyncMsg?
    ensures QueueFrom(Here, q + more) && NoticesInOrder(q + more)
  {
    var q' := q + more;
    forall i | 0 <= i < |q'| && q'[i].PeerLeft?
      ensures HasHello(q'[i..])
    {
      var j :| 0 <= j < |q[i..]| && q[i..][j].RejoinHello?;
      assert q'[i..][j].RejoinHello?;
    }
  }

  lemma ShapeOfCut(p: Presence, q: seq<Msg>, k: nat, tail: seq<Msg>)
    requires QueueFrom(p, q) && NoticesInOrder(q) && k <= |q| && (tail == [] || tail == [PeerLeft])
    ensures QueueFrom(Gone, q[..k] + tail) && NoticesInOrder(q[..k] + tail)
  {
    var q' := q[..k] + tail;
    assert forall i :: 0 <= i < |q'| && i < k ==> q'[i] == q[i];
  }

  lemma ShapeOfHello(q: seq<Msg>)
    requires !CommitBehindHello(q) && NoticesInOrder(q)
    ensures QueueFrom(Returning, q + [RejoinHello]) && NoticesInOrder(q + [RejoinHello])
  {
  }

  lemma ShapeOfTail(p: Presence, q: seq<Msg>)
    requires QueueFrom(p, q) && NoticesInOrder(q) && q != [] && (p.Returning? ==> !q[0].RejoinHello?)
    ensures QueueFrom(p, q[1..]) && NoticesInOrder(q[1..])
  {
    ShapesOfTail(q);
    if p.Here? {
      NoticesOfTail(q);
    }
  }

  /// Pumping

  /** A pump's messages after a whole stream are a whole stream of the longer history. */
  lemma PumpedStream(v: View, hold: bool, q: seq<Msg>, c: Core, feed: nat -> seq<Command>, h: History, lo: nat,
                     max: nat)
    requires Stream(v, hold, q, h, lo, max, true) && Exact(v, h, lo) && lo <= v.watermark
    requires |h| == c.nextSample && SampleEnd(c) <= max
    ensures Stream(v, hold, q + Msgs(PumpOutput(c, feed)), h + Fed(feed, c.nextSample, SampleEnd(c)), lo, max, true)
  {
    var end := SampleEnd(c);
    if end == c.nextSample {
      assert q + Msgs(PumpOutput(c, feed)) == q;
      assert h + Fed(feed, c.nextSample, end) == h;
    } else {
      PumpExtendsStream(v, hold, q, feed, h, lo, end, max);
      assert Msgs(PumpOutput(c, feed)) == Msgs(TicksOut(feed, |h|, end)) + [Commit(end - 1)];
    }
  }

  lemma PumpIsData(c: Core, feed: nat -> seq<Command>)
    ensures DataOnly(Msgs(PumpOutput(c, feed))) && NoResync(Msgs(PumpOutput(c, feed)))
  {
  }

  lemma PumpedLive(u: Setup, l: Live, role: Role, inputDelay: nat, mine: History, theirs: History, c: Core,
                   feed: nat -> seq<Command>)
    requires LiveOk(u, l, role, inputDelay, mine, theirs, Here)
      && |theirs| == c.nextSample && SampleEnd(c) <= u.maxSteps
    ensures LiveOk(u, l.(queue := l.queue + Msgs(PumpOutput(c, feed))), role, inputDelay, mine,
                   theirs + Fed(feed, c.nextSample, SampleEnd(c)), Here)
  {
    hide Agrees, PumpOutput, Stream, Msgs, QueueFrom;
    var theirs' := theirs + Fed(feed, c.nextSample, SampleEnd(c));
    PumpIsData(c, feed);
    assert Exact(ViewOf(l.core), theirs, l.core.step);
    assert theirs'[..l.core.peerNext] == theirs[..l.core.peerNext];
    hide Buffers;
    TheirHistoryMayChange(u, l.core, mine, theirs, theirs');
    PumpedStream(ViewOf(l.core), l.holding, l.queue, c, feed, theirs, l.core.step, u.maxSteps);
    ShapeOfMore(l.queue, Msgs(PumpOutput(c, feed)));
  }

  lemma PumpToLive(u: Setup, x: Side, y: Side, feed: nat -> seq<Command>)
    requires PairOk(u, x, y) && x.proc.Up? && !x.proc.holding && LiveOf(u.game, y).Some?
    ensures var (x', y') := DoPump(x, y, feed); SeatOk(u, y', x'.sampled, Here) && PresenceOf(u.game, y') == Here
  {
    hide Agrees, Buffers, Stream, Msgs, PumpOutput, QueueFrom;
    PumpOk(u, x.proc.core, x.sampled, y.sampled, feed);
    SendToLive(u.game, y, Msgs(PumpOutput(x.proc.core, feed)));
    PumpedLive(u, LiveOf(u.game, y).value, y.role, y.inputDelay, y.sampled, x.sampled, x.proc.core, feed);
  }

  lemma PumpKeeps(u: Setup, x: Side, y: Side, feed: nat -> seq<Command>)
    requires PairOk(u, x, y) && x.proc.Up? && !x.proc.holding
    ensures var (x', y') := DoPump(x, y, feed); PairOk(u, x', y')
  {
    hide Stream, Agrees;
    var (x', y') := DoPump(x, y, feed);
    PumpOk(u, x.proc.core, x.sampled, y.sampled, feed);
    if LiveOf(u.game, y).Some? {
      PumpToLive(u, x, y, feed);
    } else {
      PumpIsData(x.proc.core, feed);
      SendToNobody(u.game, y, Msgs(PumpOutput(x.proc.core, feed)));
    }
  }

  /// Advancing and losing the peer

  lemma AdvanceKeeps(u: Setup, x: Side, y: Side)
    requires PairOk(u, x, y) && x.proc.Up? && !x.proc.holding
    ensures PairOk(u, x.(proc := Up(Advanced(u.game, x.proc.core), false)), y)
  {
    hide Agrees, Buffers;
    var c, c' := x.proc.core, Advanced(u.game, x.proc.core);
    AdvanceOk(u, c, x.sampled, y.sampled);
    StreamFrame(ViewOf(c), ViewOf(c'), false, x.inbox, y.sampled, c.step, c'.step, u.maxSteps,
                PresenceOf(u.game, y).Here?);
  }

  /** Stopping to listen keeps a queue a stream, whoever sent it. */
  lemma HeldStream(u: Setup, l: Live, role: Role, inputDelay: nat, mine: History, theirs: History, p: Presence)
    requires LiveOk(u, l, role, inputDelay, mine, theirs, p)
    ensures Stream(Pruned(ViewOf(l.core)), true, l.queue, theirs, l.core.step, u.maxSteps, p.Here?)
  {
    var v := ViewOf(l.core);
    assert Alike(v, Pruned(v), true, l.core.step) by {
      forall t: nat | t < v.watermark
        ensures At(Pruned(v).peer, t) == At(v.peer, t)
      {
        PrunedAt(v, t);
      }
    }
    if l.holding {
      StreamFrame(v, Pruned(v), true, l.queue, theirs, l.core.step, l.core.step, u.maxSteps, p.Here?);
    } else if CommitsLast(l.queue) {
      HoldBeforeCommits(v, Pruned(v), l.queue, theirs, l.core.step, u.maxSteps, p.Here?);
    } else {
      HoldBeforeHello(v, Pruned(v), false, l.queue, theirs, l.core.step, u.maxSteps);
    }
  }

  /** Holding: a running seat may stop listening at any moment, for a silence or a late notice. */
  lemma HoldKeeps(u: Setup, x: Side, y: Side)
    requires PairOk(u, x, y) && x.proc.Up?
    ensures PairOk(u, Held(x), y)
  {
    hide Agrees, Buffers, Stream;
    LostPeerOk(u, x.proc.core, x.sampled, y.sampled);
    HeldStream(u, LiveOf(u.game, x).value, x.role, x.inputDelay, x.sampled, y.sampled, PresenceOf(u.game, y));
  }

  /// Receiving

  /** A core that has read one message, as its view has. */
  lemma ReadingKeeps(u: Setup, x: Side, y: Side, c: Core, holding: bool)
    requires PairOk(u, x, y) && x.proc.Up? && x.inbox != [] && !x.inbox[0].RejoinHello?
    requires c.role == x.role && c.inputDelay == x.inputDelay && c.step == x.proc.core.step
    requires CoreOk(u, c, x.sampled, y.sampled)
    requires (ViewOf(c), holding) == Heard(ViewOf(x.proc.core), x.proc.holding, x.inbox[0])
    ensures PairOk(u, x.(proc := Up(c, holding), inbox := x.inbox[1..]), y)
  {
    hide Agrees, Buffers, QueueFrom;
    ShapeOfTail(PresenceOf(u.game, y), x.inbox);
  }

  /** A command or commit at a listening seat is accepted, and read as its view reads it. */
  lemma DataAccepted(u: Setup, x: Side, y: Side)
    requires PairOk(u, x, y) && x.proc.Up? && !x.proc.holding && x.inbox != [] && IsData(x.inbox[0])
    ensures var (x', y') := DoDeliver(u.game, x, y);
            && y' == y
            && x'.proc.Up? && !x'.proc.holding && x' == x.(proc := x'.proc, inbox := x.inbox[1..])
            && x'.proc.core.role == x.role && x'.proc.core.inputDelay == x.inputDelay
            && x'.proc.core == x.proc.core.(peer := x'.proc.core.peer, peerNext := x'.proc.core.peerNext)
            && CoreOk(u, x'.proc.core, x.sampled, y.sampled)
            && (ViewOf(x'.proc.core), false) == Heard(ViewOf(x.proc.core), false, x.inbox[0])
  {
    hide Agrees;
    var c := x.proc.core;
    assert Fits(ViewOf(c), false, x.inbox[0], y.sampled, c.step, u.maxSteps);
    match x.inbox[0]
    case Cmd(at, cmd) => PeerCommandOk(u, c, x.sampled, y.sampled, at, cmd);
    case Commit(through) => PeerCommitOk(u, c, x.sampled, y.sampled, through);
  }

  lemma DataKeeps(u: Setup, x: Side, y: Side)
    requires PairOk(u, x, y) && x.proc.Up? && !x.proc.holding && x.inbox != [] && IsData(x.inbox[0])
    ensures var (x', y') := DoDeliver(u.game, x, y); PairOk(u, x', y')
  {
    hide PairOk, CoreOk;
    DataAccepted(u, x, y);
    var x' := DoDeliver(u.game, x, y).0;
    ReadingKeeps(u, x, y, x'.proc.core, false);
  }

  /** Any message but a hello. */
  lemma OtherKeeps(u: Setup, x: Side, y: Side)
    requires PairOk(u, x, y) && x.proc.Up? && x.inbox != [] && !x.inbox[0].RejoinHello?
    ensures var (x', y') := DoDeliver(u.game, x, y); PairOk(u, x', y')
  {
    hide Stream, Agrees, Buffers, QueueFrom;
    var c, m := x.proc.core, x.inbox[0];
    if !x.proc.holding && IsData(m) {
      DataKeeps(u, x, y);
    } else if m.PeerLeft? {
      LostPeerOk(u, c, x.sampled, y.sampled);
      if x.proc.holding {
        PrunedTwice(u, x, y);
      } else {
        ReadingKeeps(u, x, y, OnPeerLost(c), true);
      }
    } else {
      ReadingKeeps(u, x, y, c, x.proc.holding);
    }
  }

  /** A notice read while holding is dropped: the core was pruned when it stopped listening. */
  lemma PrunedTwice(u: Setup, x: Side, y: Side)
    requires PairOk(u, x, y) && x.proc.Up? && x.proc.holding && x.inbox != [] && x.inbox[0].PeerLeft?
    ensures PairOk(u, x.(inbox := x.inbox[1..]), y)
  {
    hide Agrees, Buffers, QueueFrom;
    var v, p := ViewOf(x.proc.core), PresenceOf(u.game, y);
    ShapeOfTail(p, x.inbox);
    assert Alike(Pruned(v), v, true, x.proc.core.step) by {
      forall t: nat | t < v.watermark
        ensures At(Pruned(v).peer, t) == At(v.peer, t)
      {
        PrunedAt(v, t);
      }
    }
    StreamFrame(Pruned(v), v, true, x.inbox[1..], y.sampled, x.proc.core.step, x.proc.core.step, u.maxSteps, p.Here?);
  }

  /// Answering a hello

  /** What answering does to the seat that answers, whatever has become of its peer. */
  lemma AnswererKeeps(u: Setup, x: Side, theirs: History, p: Presence)
    requires SeatOk(u, x, theirs, p) && x.proc.Up? && x.inbox != [] && x.inbox[0].RejoinHello? && !p.Returning?
    ensures SeatOk(u, x.(proc := Up(OnPeerLost(x.proc.core), false), inbox := x.inbox[1..]), theirs, p)
  {
    hide Agrees, Buffers, QueueFrom;
    LostPeerOk(u, x.proc.core, x.sampled, theirs);
    ShapeOfTail(p, x.inbox);
  }

  lemma AnsweredLive(u: Setup, x: Side, y: Side)
    requires PairOk(u, x, y) && x.proc.Up? && x.inbox != [] && x.inbox[0].RejoinHello? && LiveOf(u.game, y).Some?
    ensures var (x', y') := DoDeliver(u.game, x, y); PairOk(u, x', y')
  {
    hide Agrees, Buffers, QueueFrom, CoreOk;
    var l, r := LiveOf(u.game, y).value, ResyncMsg(MakeResync(u.game, OnPeerLost(x.proc.core)));
    AnswererKeeps(u, x, y.sampled, Here);
    SendToLive(u.game, y, [r]);
    StreamStray(ViewOf(l.core), l.holding, l.queue, r, x.sampled, l.core.step, u.maxSteps, true);
    ShapeOfMore(l.queue, [r]);
  }

  /** The hand-off: the fresh process will adopt the survivor's mirror, over the committed histories. */
  lemma HandOff(u: Setup, x: Side, y: Side)
    requires Faithful(u.game) && y.role == Other(x.role) && Awaiting(y)
    requires x.proc.Up? && x.inbox != [] && x.inbox[0].RejoinHello?
    requires x.proc.core.role == x.role && CoreOk(u, x.proc.core, x.sampled, y.sampled)
    ensures var (x', y') := DoDeliver(u.game, x, y);
            var c := OnPeerLost(x.proc.core);
            && x' == x.(proc := Up(c, false), inbox := x.inbox[1..])
            && c.peerNext <= |y.sampled|
            && y' == y.(inbox := y.inbox + [ResyncMsg(MakeResync(u.game, c))], sampled := y.sampled[..c.peerNext])
            && LiveOf(u.game, y') == Some(Live(Mirror(c, y.inputDelay), false, []))
            && CoreOk(u, c, x.sampled, y.sampled) && NothingUncommitted(ViewOf(c))
  {
    hide Agrees, Buffers;
    var c := OnPeerLost(x.proc.core);
    LostPeerOk(u, x.proc.core, x.sampled, y.sampled);
    ReachableIsTransferable(u, c, x.sampled, y.sampled);
    ResyncIsMirror(u.game, c, y.inputDelay);
    var r := ResyncMsg(MakeResync(u.game, c));
    FirstResyncOfMore(y.inbox, [r]);
    assert FirstResync([r]) == Some((r.resync, [r][1..])) && [r][1..] == [];
  }

  /** What answering a returning peer leaves to the answerer: it knows everything the peer will claim. */
  lemma AnswererKnowsAll(u: Setup, x: Side, theirs: History)
    requires SeatOk(u, x, theirs, Returning) && x.proc.Up? && x.inbox != [] && x.inbox[0].RejoinHello?
    ensures var c := OnPeerLost(x.proc.core);
            && c.peerNext <= |theirs|
            && SeatOk(u, x.(proc := Up(c, false), inbox := x.inbox[1..]), theirs[..c.peerNext], Here)
  {
    hide Agrees, Buffers;
    var c, rest := OnPeerLost(x.proc.core), x.inbox[1..];
    LostPeerOk(u, x.proc.core, x.sampled, theirs);
    TheirHistoryMayChange(u, c, x.sampled, theirs, theirs[..c.peerNext]);
    ShapesOfTail(x.inbox);
    CommitFreeMeansNone(rest);
    EndsInHello(rest);
    CommitFreeWhole(ViewOf(c), false, rest, theirs, c.step, u.maxSteps);
  }

  lemma AnsweredReturning(u: Setup, x: Side, y: Side)
    requires Faithful(u.game)
    requires PairOk(u, x, y) && x.proc.Up? && x.inbox != [] && x.inbox[0].RejoinHello? && Awaiting(y)
    ensures var (x', y') := DoDeliver(u.game, x, y); PairOk(u, x', y')
  {
    hide Agrees, Buffers, CommitBehindHello;
    var c := OnPeerLost(x.proc.core);
    HandOff(u, x, y);
    AnswererKnowsAll(u, x, y.sampled);
    MirrorOk(u, c, x.sampled, y.sampled, y.inputDelay);
  }

  lemma EndsInHello(q: seq<Msg>)
    requires q == [] || q[|q| - 1].RejoinHello?
    ensures NoticesAnswered(q)
  {
    forall i | 0 <= i < |q| && q[i].PeerLeft?
      ensures HasHello(q[i..])
    {
      assert q[i..][|q| - 1 - i] == q[|q| - 1];
    }
  }

  lemma AnsweredGone(u: Setup, x: Side, y: Side)
    requires PairOk(u, x, y) && x.proc.Up? && x.inbox != [] && x.inbox[0].RejoinHello? && PresenceOf(u.game, y).Gone?
    ensures var (x', y') := DoDeliver(u.game, x, y); PairOk(u, x', y')
  {
    hide Agrees, Buffers, QueueFrom, Stream, CoreOk;
    AnswererKeeps(u, x, y.sampled, Gone);
  }

  lemma HelloKeeps(u: Setup, x: Side, y: Side)
    requires Faithful(u.game)
    requires PairOk(u, x, y) && x.proc.Up? && x.inbox != [] && x.inbox[0].RejoinHello?
    ensures var (x', y') := DoDeliver(u.game, x, y); PairOk(u, x', y')
  {
    hide LiveOk;
    if LiveOf(u.game, y).Some? {
      AnsweredLive(u, x, y);
    } else if y.proc.Joining? {
      AnsweredReturning(u, x, y);
    } else {
      AnsweredGone(u, x, y);
    }
  }

  /** A joining seat drops strays, and adopts the first resync: the core that was in play all along. */
  lemma AwaitKeeps(u: Setup, x: Side, y: Side)
    requires PairOk(u, x, y) && x.proc.Joining? && x.inbox != []
    ensures var (x', y') := DoDeliver(u.game, x, y);
            PairOk(u, x', y') && LiveOf(u.game, x') == LiveOf(u.game, x) && y' == y
  {
    hide LiveOk;
  }

  lemma DeliverKeeps(u: Setup, x: Side, y: Side)
    requires Faithful(u.game) && PairOk(u, x, y)
    ensures var (x', y') := DoDeliver(u.game, x, y); PairOk(u, x', y')
  {
    hide PairOk, DoReceive, DoAwait;
    if x.inbox != [] {
      if x.proc.Joining? {
        AwaitKeeps(u, x, y);
      } else if x.proc.Up? {
        if x.inbox[0].RejoinHello? {
          HelloKeeps(u, x, y);
        } else {
          OtherKeeps(u, x, y);
        }
      }
    }
  }

  /// Dying and rejoining

  lemma {:induction false} FirstResyncCut(q: seq<Msg>, k: nat)
    requires k <= |q|
    ensures FirstResync(q).None? ==> FirstResync(q[..k]).None?
    ensures FirstResync(q).Some? && FirstResync(q[..k]).Some? ==>
              var post := FirstResync(q).value.1;
              var k' := k - (|q| - |post|);
              0 <= k' <= |post| && FirstResync(q[..k]) == Some((FirstResync(q).value.0, post[..k']))
  {
    if q != [] && k > 0 {
      assert q[..k][0] == q[0] && q[..k][1..] == q[1..][..k - 1];
      if !q[0].ResyncMsg? {
        FirstResyncCut(q[1..], k - 1);
        FirstResyncFits(q[1..]);
      }
    }
  }

  lemma {:induction false} FirstResyncFits(q: seq<Msg>)
    ensures FirstResync(q).Some? ==> |FirstResync(q).value.1| < |q|
  {
    if q != [] && !q[0].ResyncMsg? {
      FirstResyncFits(q[1..]);
    }
  }

  /** The core in play after a cut: gone with its hand-off, or left with a prefix of its queue. */
  lemma CutLive(g: Game, y: Side, k: nat, tail: seq<Msg>)
    requires k <= |y.inbox| && (tail == [] || tail == [PeerLeft])
      && (y.proc.Joining? ==> Awaiting(y) || LiveOf(g, y).Some?)
    ensures var y' := Send(y.(inbox := y.inbox[..k]), tail);
            && (y'.proc.Joining? ==> Awaiting(y') || LiveOf(g, y').Some?)
            && (LiveOf(g, y').Some? ==>
                  LiveOf(g, y).Some? && exists k' ::
                    0 <= k' <= |LiveOf(g, y).value.queue|
                    && LiveOf(g, y').value == LiveOf(g, y).value.(queue := LiveOf(g, y).value.queue[..k'] + tail))
  {
    if y.proc.Joining? {
      FirstResyncCut(y.inbox, k);
      FirstResyncOfMore(y.inbox[..k], tail);
      NoFirstResync(tail);
    }
  }

  lemma DieKeeps(u: Setup, x: Side, y: Side, kept: nat, noticed: bool)
    requires PairOk(u, x, y)
    ensures var (x', y') := DoDie(x, y, kept, noticed); PairOk(u, x', y')
  {
    hide Agrees, Buffers, QueueFrom, CoreOk, Stream;
    var k, tail := Min(kept, |y.inbox|), if noticed then [PeerLeft] else [];
    var p, y' := PresenceOf(u.game, x), DoDie(x, y, kept, noticed).1;
    CutLive(u.game, y, k, tail);
    if LiveOf(u.game, y').Some? {
      var l := LiveOf(u.game, y).value;
      var k' :| 0 <= k' <= |l.queue| && LiveOf(u.game, y').value == l.(queue := l.queue[..k'] + tail);
      StreamCut(ViewOf(l.core), l.holding, l.queue, k', tail, x.sampled, l.core.step, u.maxSteps, p.Here?);
      ShapeOfCut(p, l.queue, k', tail);
    }
  }

  lemma {:induction false} NothingBehindLater(q: seq<Msg>)
    requires !CommitBehindHello(q) && FirstResync(q).Some?
    ensures !CommitBehindHello(FirstResync(q).value.1)
  {
    ShapesOfTail(q);
    if !q[0].ResyncMsg? {
      NothingBehindLater(q[1..]);
    }
  }

  /** A rejoin keeps the invariant unless a commit is queued behind an unanswered hello. */
  lemma RejoinKeeps(u: Setup, x: Side, y: Side)
    requires PairOk(u, x, y) && x.proc.Down? && !CommitBehindHello(y.inbox)
    ensures var (x', y') := DoRejoin(x, y); PairOk(u, x', y')
  {
    hide Agrees, Buffers, QueueFrom, CoreOk, Stream, CommitBehindHello;
    if LiveOf(u.game, y).Some? {
      var l := LiveOf(u.game, y).value;
      SendToLive(u.game, y, [RejoinHello]);
      if y.proc.Joining? {
        NothingBehindLater(y.inbox);
      }
      StreamCut(ViewOf(l.core), l.holding, l.queue, |l.queue|, [RejoinHello], x.sampled, l.core.step,
                u.maxSteps, false);
      assert l.queue[..|l.queue|] == l.queue;
      ShapeOfHello(l.queue);
    } else {
      SendToNobody(u.game, y, [RejoinHello]);
    }
  }

  /// Every run

  lemma ActKeepsRole(g: Game, x: Side, y: Side, a: Action)
    ensures Act(g, x, y, a).0.role == x.role && Act(g, x, y, a).1.role == y.role
  {
  }

  lemma ActKeeps(u: Setup, x: Side, y: Side, a: Action)
    requires Faithful(u.game) && PairOk(u, x, y)
    requires a.Rejoin? && x.proc.Down? ==> !CommitBehindHello(y.inbox)
    ensures var (x', y') := Act(u.game, x, y, a); PairOk(u, x', y') && x'.role == x.role
  {
    ActKeepsRole(u.game, x, y, a);
    hide PairOk, DoPump, DoDeliver, DoDie, DoRejoin, Held, Advanced, CommitBehindHello, Core.BlockedOnPeer;
    match a
    case Pump(feed) => if x.proc.Up? && !x.proc.holding { PumpKeeps(u, x, y, feed); }
    case Deliver => DeliverKeeps(u, x, y);
    case Advance => if x.proc.Up? && !x.proc.holding { AdvanceKeeps(u, x, y); }
    case Silence => if x.proc.Up? { HoldKeeps(u, x, y); }
    case Notice => if x.proc.Up? { HoldKeeps(u, x, y); }
    case Die(kept, noticed) => DieKeeps(u, x, y, kept, noticed);
    case Rejoin => if x.proc.Down? { RejoinKeeps(u, x, y); }
  }

  lemma NextKeeps(u: Setup, w: World, m: Move)
    requires Faithful(u.game) && WorldOk(u, w) && Allowed(w, m)
    ensures WorldOk(u, Next(u.game, w, m))
  {
    hide SeatOk;
    ActKeeps(u, w.Get(m.role), w.Get(Other(m.role)), m.action);
  }

  /** The system invariant holds in every state of every allowed run, whatever is pumped, delivered,
      executed or lost, whoever dies when, and in whatever order. */
  lemma {:induction false} EveryRunKeepsTheInvariant(u: Setup, delayI: nat, delayH: nat, moves: seq<Move>)
    requires Faithful(u.game) && AllowedRun(u.game, FreshWorld(u, delayI, delayH), moves)
    ensures WorldOk(u, RunMoves(u.game, FreshWorld(u, delayI, delayH), moves))
  {
    FreshWorldOk(u, delayI, delayH);
    AllowedRunKeeps(u, FreshWorld(u, delayI, delayH), moves);
  }

  lemma {:induction false} AllowedRunKeeps(u: Setup, w: World, moves: seq<Move>)
    requires Faithful(u.game) && WorldOk(u, w) && AllowedRun(u.game, w, moves)
    ensures WorldOk(u, RunMoves(u.game, w, moves))
  {
    hide WorldOk;
    if moves != [] {
      var n := |moves| - 1;
      var front := moves[..n];
      AllowedFront(u.game, w, moves);
      AllowedRunKeeps(u, w, front);
      NextKeeps(u, RunMoves(u.game, w, front), moves[n]);
    }
  }

  lemma AllowedFront(g: Game, w: World, moves: seq<Move>)
    requires AllowedRun(g, w, moves) && moves != []
    ensures AllowedRun(g, w, moves[..|moves| - 1])
    ensures Allowed(RunMoves(g, w, moves[..|moves| - 1]), moves[|moves| - 1])
  {
    var front := moves[..|moves| - 1];
    forall i | 0 <= i < |front|
      ensures Allowed(RunMoves(g, w, front[..i]), front[i])
    {
      assert front[..i] == moves[..i];
    }
  }
}
