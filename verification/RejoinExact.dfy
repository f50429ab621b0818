/** The rejoin race, exactly: over any state the two seats can reach, a rejoin can lead to a protocol error
    if and only if a commit of an earlier process is queued behind a hello that is still to be answered. */
module RejoinExact {
  import opened Wrappers
  import opened Commands
  import opened Envelope
  import opened Headless
  import opened Lockstep
  import opened Streams
  import opened SeatInvariant
  import opened Netplay
  import opened NetplaySafety
  import opened NetplayTheorems
  import opened NetplayProgress

  /// Continuations

  function WorldOf(r: Role, x: Side, y: Side): World {
    if r == Infiltrator then World(x, y) else World(y, x)
  }

  predicate WithoutRejoins(moves: seq<Move>) {
    forall i :: 0 <= i < |moves| ==> !moves[i].action.Rejoin?
  }

  /** Some continuation without further rejoins stops the seat opposite `r` with a protocol error. */
  ghost predicate CanCrash(g: Game, r: Role, w: World) {
    exists moves :: WithoutRejoins(moves) && RunMoves(g, w, moves).Get(Other(r)).proc.Crashed?
  }

  lemma {:induction false} RunFromNext(g: Game, w: World, m: Move, moves: seq<Move>)
    ensures RunMoves(g, w, [m] + moves) == RunMoves(g, Next(g, w, m), moves)
  {
    hide Next;
    if moves == [] {
      assert [m] + moves == [m] && [m][..0] == [];
    } else {
      var front := moves[..|moves| - 1];
      assert ([m] + moves)[..|moves|] == [m] + front;
      RunFromNext(g, w, m, front);
    }
  }

  lemma CrashAfter(g: Game, r: Role, w: World, m: Move)
    requires CanCrash(g, r, Next(g, w, m)) && !m.action.Rejoin?
    ensures CanCrash(g, r, w)
  {
    var moves :| WithoutRejoins(moves) && RunMoves(g, Next(g, w, m), moves).Get(Other(r)).proc.Crashed?;
    RunFromNext(g, w, m, moves);
    assert WithoutRejoins([m] + moves);
  }

  /** The returning seat `x` acts. */
  lemma CrashAfterX(g: Game, r: Role, x: Side, y: Side, a: Action)
    requires !a.Rejoin? && CanCrash(g, r, WorldOf(r, Act(g, x, y, a).0, Act(g, x, y, a).1))
    ensures CanCrash(g, r, WorldOf(r, x, y))
  {
    hide Act, CanCrash;
    CrashAfter(g, r, WorldOf(r, x, y), Move(r, a));
  }

  /** The survivor `y` acts. */
  lemma CrashAfterY(g: Game, r: Role, x: Side, y: Side, a: Action)
    requires !a.Rejoin? && CanCrash(g, r, WorldOf(r, Act(g, y, x, a).1, Act(g, y, x, a).0))
    ensures CanCrash(g, r, WorldOf(r, x, y))
  {
    hide Act, CanCrash;
    CrashAfter(g, r, WorldOf(r, x, y), Move(Other(r), a));
  }

  lemma CrashedNow(g: Game, r: Role, x: Side, y: Side)
    requires y.proc.Crashed?
    ensures CanCrash(g, r, WorldOf(r, x, y))
  {
    assert WithoutRejoins([]) && RunMoves(g, WorldOf(r, x, y), []).Get(Other(r)).proc.Crashed?;
  }

  /// The survivor reads what is queued

  predicate Wakes(m: Msg) {
    m.PeerLeft? || m.RejoinHello?
  }

  /** A queue that ends in a hello, at a seat that listens or is about to be told something. */
  predicate EndsListening(hold: bool, q: seq<Msg>) {
    && NoticesInOrder(q)
    && (q == [] ==> !hold)
    && (q != [] ==> q[|q| - 1].RejoinHello? && (hold ==> Wakes(q[0])))
  }

  lemma EndsListeningTail(v: View, hold: bool, q: seq<Msg>)
    requires EndsListening(hold, q) && q != []
    ensures EndsListening(Heard(v, hold, q[0]).1, q[1..])
  {
    ShapesOfTail(q);
    if |q| > 1 {
      assert q[1..][0] == q[1] && q[1..][|q| - 2] == q[|q| - 1];
    }
  }

  /** One message at a running seat does to its core what it does to its view. */
  lemma OneMessage(u: Setup, x: Side, y: Side, h: History, lo: nat)
    requires y.proc.Up? && y.inbox != [] && y.proc.core.maxSteps == u.maxSteps
    requires Fits(ViewOf(y.proc.core), y.proc.holding, y.inbox[0], h, lo, u.maxSteps)
    ensures var (y', _) := DoDeliver(u.game, y, x);
            && y'.proc.Up? && y'.inbox == y.inbox[1..] && y'.proc.core.maxSteps == u.maxSteps
            && y'.proc.holding == Heard(ViewOf(y.proc.core), y.proc.holding, y.inbox[0]).1
            && Alike(Heard(ViewOf(y.proc.core), y.proc.holding, y.inbox[0]).0, ViewOf(y'.proc.core), y'.proc.holding, 0)
  {
    var c := y.proc.core;
    forall t: nat
      ensures At(Pruned(ViewOf(c)).peer, t) == At(OnPeerLost(c).peer, t)
      ensures t < c.peerNext ==> At(Pruned(ViewOf(c)).peer, t) == At(c.peer, t)
    {
      PrunedAt(ViewOf(c), t);
    }
  }

  /** A survivor that reads its queue up to a command it has a commit for refuses that command. */
  lemma {:induction false} ReadingEndsBadly(u: Setup, r: Role, x: Side, y: Side, v: View, q: seq<Msg>, tail: seq<Msg>,
                                            h: History, lo: nat, p: nat)
    requires y.proc.Up? && y.inbox == q + tail && y.proc.core.maxSteps == u.maxSteps
    requires Alike(v, ViewOf(y.proc.core), y.proc.holding, lo) && lo <= v.watermark
    requires Stream(v, y.proc.holding, q, h, lo, u.maxSteps, false) && EndsListening(y.proc.holding, q)
    requires tail != [] && tail[0].Cmd? && tail[0].at == p
    requires p < v.watermark || (p == v.watermark && !CommitFree(q))
    ensures CanCrash(u.game, r, WorldOf(r, x, y))
    decreases |q|
  {
    hide CanCrash, Stream, NoticesInOrder, Alike;
    var g, hold := u.game, y.proc.holding;
    if q == [] {
      assert y.inbox == tail;
      WatermarksAlike(v, ViewOf(y.proc.core), hold, lo);
      CrashedNow(g, r, Act(g, y, x, Deliver).1, Act(g, y, x, Deliver).0);
    } else {
      StreamStep(v, ViewOf(y.proc.core), hold, q, h, lo, u.maxSteps);
      assert y.inbox[0] == q[0] && y.inbox[1..] == q[1..] + tail;
      OneMessage(u, x, y, h, lo);
      EndsListeningTail(v, hold, q);
      StillBehind(v, hold, q, h, lo, u.maxSteps, p);
      var (y', x') := DoDeliver(g, y, x);
      AlikeChain(v, ViewOf(y.proc.core), ViewOf(y'.proc.core), hold, q[0], h, lo, u.maxSteps);
      ReadingEndsBadly(u, r, x', y', Heard(v, hold, q[0]).0, q[1..], tail, h, lo, p);
    }
    CrashAfterY(g, r, x, y, Deliver);
  }

  lemma WatermarksAlike(v: View, w: View, hold: bool, lo: nat)
    requires Alike(v, w, hold, lo)
    ensures w.watermark == v.watermark
  {
  }

  lemma StreamStep(v: View, w: View, hold: bool, q: seq<Msg>, h: History, lo: nat, max: nat)
    requires Stream(v, hold, q, h, lo, max, false) && q != [] && Alike(v, w, hold, lo) && lo <= v.watermark
    ensures Fits(v, hold, q[0], h, lo, max) && Fits(w, hold, q[0], h, lo, max)
    ensures Stream(Heard(v, hold, q[0]).0, Heard(v, hold, q[0]).1, q[1..], h, lo, max, false)
    ensures lo <= Heard(v, hold, q[0]).0.watermark
  {
    AlikeAfter(v, w, hold, q[0], h, lo, lo, max);
  }

  lemma AlikeChain(v: View, w: View, w': View, hold: bool, m: Msg, h: History, lo: nat, max: nat)
    requires Alike(v, w, hold, lo) && lo <= v.watermark && Fits(v, hold, m, h, lo, max)
    requires Alike(Heard(w, hold, m).0, w', Heard(w, hold, m).1, 0)
    ensures Alike(Heard(v, hold, m).0, w', Heard(v, hold, m).1, lo)
  {
    AlikeAfter(v, w, hold, m, h, lo, lo, max);
  }

  lemma CommitInTail(q: seq<Msg>)
    requires q != []
    ensures CommitFree(q) <==> !q[0].Commit? && CommitFree(q[1..])
  {
    assert q == [q[0]] + q[1..];
  }

  /** Reading on, the disputed tick stays committed, or the commit that disputes it is still to come. */
  lemma StillBehind(v: View, hold: bool, q: seq<Msg>, h: History, lo: nat, max: nat, p: nat)
    requires q != [] && Fits(v, hold, q[0], h, lo, max) && (hold ==> Wakes(q[0]))
    requires p < v.watermark || (p == v.watermark && !CommitFree(q))
    ensures var w := Heard(v, hold, q[0]).0; p < w.watermark || (p == w.watermark && !CommitFree(q[1..]))
  {
    CommitInTail(q);
  }

  /** A commit that will be read means the survivor's watermark lies before the end of the run. */
  lemma {:induction false} CommitMeansTicksLeft(v: View, hold: bool, q: seq<Msg>, h: History, lo: nat, max: nat)
    requires Stream(v, hold, q, h, lo, max, false) && EndsListening(hold, q) && !CommitFree(q)
    ensures v.watermark < max
    decreases |q|
  {
    if !q[0].Commit? {
      CommitInTail(q);
      EndsListeningTail(v, hold, q);
      CommitMeansTicksLeft(Heard(v, hold, q[0]).0, Heard(v, hold, q[0]).1, q[1..], h, lo, max);
    }
  }

  /// The fresh process samples the disputed tick again

  function JumpAt(p: nat): nat -> seq<Command> {
    t => if t == p then [Jump] else []
  }

  lemma {:induction false} JumpComesFirst(p: nat, end: nat)
    requires p < end
    ensures TicksOut(JumpAt(p), p, end) == [CommandOut(p, Jump)]
  {
    if p + 1 == end {
      assert [Jump][..0] == [];
      assert CommandsOut(p, [Jump]) == [CommandOut(p, Jump)];
      assert TicksOut(JumpAt(p), p, p) == [];
    } else {
      JumpComesFirst(p, end - 1);
      assert CommandsOut(end - 1, []) == [];
    }
  }

  lemma ResamplingEndsBadly(u: Setup, r: Role, x: Side, y: Side, q: seq<Msg>, h: History, p: nat)
    requires Listening(x) && Listening(y) && x.proc.core.nextSample == p < SampleEnd(x.proc.core)
    requires y.inbox == q && y.proc.core.maxSteps == u.maxSteps
    requires y.proc.core.peerNext == p && y.proc.core.step <= p && EndsListening(false, q) && !CommitFree(q)
    requires Stream(ViewOf(y.proc.core), false, q, h, y.proc.core.step, u.maxSteps, false)
    ensures CanCrash(u.game, r, WorldOf(r, x, y))
  {
    hide CanCrash, Stream, EndsListening;
    var c := x.proc.core;
    var (x', y') := DoPump(x, y, JumpAt(p));
    var sent := PumpOutput(c, JumpAt(p));
    JumpComesFirst(p, SampleEnd(c));
    assert sent[0] == CommandOut(p, Jump);
    assert Msgs(sent)[0] == Cmd(p, Jump);
    ReadingEndsBadly(u, r, x', y', ViewOf(y.proc.core), q, Msgs(sent), h, y.proc.core.step, p);
    CrashAfterX(u.game, r, x, y, Pump(JumpAt(p)));
  }

  /// Ticks left

  ghost predicate Extends(h: History, h': History, feed: nat -> seq<Command>) {
    h <= h' && forall t: nat :: |h| <= t < |h'| ==> h'[t] == feed(t)
  }

  /** With `feed` as the survivor's further input, the game is not over within the ticks the other seat had
      sampled. */
  ghost predicate TicksLeft(u: Setup, role: Role, mine: History, theirs: History, feed: nat -> seq<Command>) {
    forall h': History, k: nat :: Extends(mine, h', feed) && k <= |h'| && k < |theirs| ==>
      !u.game.ended(Exec(u.game, u.start, MergedHistory(role, h', theirs, k)).run.sim)
  }

  /** The survivor `y`, its inbox set aside, and the process `x` that adopted its stale hand-off: in step
      with each other up to the disputed tick `p`. */
  ghost predicate InStep(u: Setup, x: Side, y: Side, mine: History, theirs: History, feed: nat -> seq<Command>,
                         p: nat) {
    && Together(u, x, y) && y.inbox == []
    && x.proc.core.nextSample == p == y.proc.core.peerNext
    && p < u.maxSteps && p <= |theirs| && x.sampled == theirs[..p]
    && Extends(mine, y.sampled, feed) && TicksLeft(u, y.role, mine, theirs, feed)
  }

  lemma NobodyHasEnded(u: Setup, x: Side, y: Side, mine: History, theirs: History, feed: nat -> seq<Command>, p: nat)
    requires InStep(u, x, y, mine, theirs, feed, p)
    ensures !x.proc.core.ended && !y.proc.core.ended
  {
    hide Stream, Buffers, TicksLeft;
    if y.proc.core.ended {
      NotOverYet(u, y.proc.core, y.role, y.sampled, x.sampled, mine, theirs, feed, p);
    }
    if x.proc.core.ended {
      MergedHistoryOfOther(y.role, y.sampled, x.sampled, x.proc.core.step);
      NotOverYet(u, x.proc.core, y.role, y.sampled, x.sampled, mine, theirs, feed, p);
    }
  }

  lemma NotOverYet(u: Setup, c: Core, role: Role, h': History, cut: History, mine: History, theirs: History,
                   feed: nat -> seq<Command>, p: nat)
    requires c.step < p <= |theirs| && c.step <= |h'| && cut == theirs[..p]
    requires Extends(mine, h', feed) && TicksLeft(u, role, mine, theirs, feed)
    requires c.run == Exec(u.game, u.start, MergedHistory(role, h', cut, c.step)).run
    ensures !u.game.ended(c.run.sim)
  {
    assert cut[..c.step] == theirs[..c.step];
    MergedHistoryLocal(role, h', cut, h', theirs, c.step);
  }

  /** When nothing more can be done without the survivor reading its inbox, the fresh process stands at the
      disputed tick and can sample it. */
  lemma StuckAtTheTick(u: Setup, x: Side, y: Side, mine: History, theirs: History, feed: nat -> seq<Command>, p: nat)
    requires InStep(u, x, y, mine, theirs, feed, p)
    requires x.inbox == [] && NothingToPump(y.proc.core) && !x.proc.core.Ready() && !y.proc.core.Ready()
    ensures SampleEnd(x.proc.core) > p
  {
    NobodyHasEnded(u, x, y, mine, theirs, feed, p);
    HeardAll(u, x, y);
  }

  lemma HeardAll(u: Setup, x: Side, y: Side)
    requires Together(u, x, y) && x.inbox == []
    ensures x.proc.core.peerNext == y.proc.core.nextSample
    ensures x.proc.core.step <= x.proc.core.nextSample && y.proc.core.step <= y.proc.core.peerNext
    ensures x.proc.core.maxSteps == y.proc.core.maxSteps == u.maxSteps
  {
    hide Agrees, Buffers;
  }

  /// Catching up

  /** A move of the survivor that reads nothing keeps the two in step. */
  lemma SurvivorMoves(u: Setup, x: Side, y: Side, mine: History, theirs: History, feed: nat -> seq<Command>, p: nat,
                      a: Action)
    requires InStep(u, x, y, mine, theirs, feed, p) && (a == Pump(feed) || a.Advance?)
    ensures var (y', x') := Act(u.game, y, x, a); InStep(u, x', y', mine, theirs, feed, p)
  {
    hide TicksLeft, PairOk;
    TogetherIsSymmetric(u, x, y);
    LosslessKeepsTogether(u, y, x, a);
    TogetherIsSymmetric(u, Act(u.game, y, x, a).0, Act(u.game, y, x, a).1);
    if a.Advance? {
      AdvanceTouches(u, y, x);
    } else {
      TogetherBounds(u, y, x);
      ExtendsPumped(mine, y.sampled, feed, y.proc.core.nextSample, SampleEnd(y.proc.core));
    }
  }

  lemma AdvanceTouches(u: Setup, x: Side, y: Side)
    requires Together(u, x, y)
    ensures var c := Advanced(u.game, x.proc.core);
            c.peerNext == x.proc.core.peerNext && c.nextSample == x.proc.core.nextSample
  {
    hide Stream, Agrees, Buffers;
    AdvanceOk(u, x.proc.core, x.sampled, y.sampled);
  }

  lemma ExtendsPumped(mine: History, h: History, feed: nat -> seq<Command>, lo: nat, hi: nat)
    requires Extends(mine, h, feed) && |h| == lo <= hi
    ensures Extends(mine, h + Fed(feed, lo, hi), feed)
  {
    var h' := h + Fed(feed, lo, hi);
    forall t: nat | |mine| <= t < |h'|
      ensures h'[t] == feed(t)
    {
      if t >= lo {
        FedAt(feed, lo, hi, t);
      }
    }
  }

  /** A move of the fresh process that samples nothing keeps the two in step. */
  lemma FreshMoves(u: Setup, x: Side, y: Side, mine: History, theirs: History, feed: nat -> seq<Command>, p: nat,
                   a: Action)
    requires InStep(u, x, y, mine, theirs, feed, p) && (a.Deliver? || a.Advance?)
    ensures var (x', y') := Act(u.game, x, y, a); InStep(u, x', y', mine, theirs, feed, p) && y' == y
  {
    hide TicksLeft, PairOk, DoReceive;
    LosslessKeepsTogether(u, x, y, a);
    if a.Advance? {
      AdvanceTouches(u, x, y);
    } else if x.inbox != [] {
      DataAccepted(u, x, y);
    }
  }

  /** What the survivor has still to read: it ends where it listens, and a commit is in it. */
  ghost predicate Disputed(u: Setup, c: Core, q: seq<Msg>, h: History) {
    && EndsListening(false, q) && !CommitFree(q)
    && Stream(ViewOf(c), false, q, h, c.step, u.maxSteps, false)
  }

  lemma DisputedAfterAdvance(u: Setup, x: Side, y: Side, q: seq<Msg>, h: History)
    requires Together(u, y, x) && Disputed(u, y.proc.core, q, h)
    ensures Disputed(u, Advanced(u.game, y.proc.core), q, h)
  {
    hide Agrees, Buffers, EndsListening;
    var c, c' := y.proc.core, Advanced(u.game, y.proc.core);
    AdvanceOk(u, c, y.sampled, x.sampled);
    StreamFrame(ViewOf(c), ViewOf(c'), false, q, h, c.step, c'.step, u.maxSteps, false);
  }

  /** The two play up to the disputed tick while the survivor's inbox `q` waits; then the fresh process
      samples it again. */
  lemma {:induction false} CatchingUpEndsBadly(u: Setup, r: Role, x: Side, y: Side, q: seq<Msg>, h: History,
                                               mine: History,
                                               theirs: History, feed: nat -> seq<Command>, p: nat)
    requires InStep(u, x, y, mine, theirs, feed, p) && Disputed(u, y.proc.core, q, h)
    requires x.proc.core.nextSample <= u.maxSteps && x.proc.core.step <= u.maxSteps
    requires y.proc.core.nextSample <= u.maxSteps && y.proc.core.step <= u.maxSteps
    ensures CanCrash(u.game, r, WorldOf(r, x, y.(inbox := q)))
    decreases Work(u, x, feed) + Work(u, y, feed)
  {
    hide CanCrash, PairOk, CoreOk, Stream, TicksLeft, EndsListening;
    var g := u.game;
    if SampleEnd(x.proc.core) > p {
      TogetherBounds(u, x, y);
      ResamplingEndsBadly(u, r, x, y.(inbox := q), q, h, p);
    } else if !NothingToPump(y.proc.core) {
      SurvivorStep(u, r, x, y, q, h, mine, theirs, feed, p, Pump(feed));
    } else if y.proc.core.Ready() {
      SurvivorStep(u, r, x, y, q, h, mine, theirs, feed, p, Advance);
    } else if x.inbox != [] {
      FreshStep(u, r, x, y, q, h, mine, theirs, feed, p, Deliver);
    } else if x.proc.core.Ready() {
      FreshStep(u, r, x, y, q, h, mine, theirs, feed, p, Advance);
    } else {
      StuckAtTheTick(u, x, y, mine, theirs, feed, p);
    }
  }

  lemma SurvivorStep(u: Setup, r: Role, x: Side, y: Side, q: seq<Msg>, h: History, mine: History, theirs: History,
                     feed: nat -> seq<Command>, p: nat, a: Action)
    requires InStep(u, x, y, mine, theirs, feed, p) && Disputed(u, y.proc.core, q, h)
    requires x.proc.core.nextSample <= u.maxSteps && x.proc.core.step <= u.maxSteps
    requires y.proc.core.nextSample <= u.maxSteps && y.proc.core.step <= u.maxSteps
    requires (a == Pump(feed) && !NothingToPump(y.proc.core)) || (a.Advance? && y.proc.core.Ready())
    ensures CanCrash(u.game, r, WorldOf(r, x, y.(inbox := q)))
    decreases Work(u, x, feed) + Work(u, y, feed), 0
  {
    hide CanCrash, PairOk, CoreOk, Stream, TicksLeft, EndsListening;
    var (y', x') := Act(u.game, y, x, a);
    TogetherBounds(u, x, y);
    TogetherIsSymmetric(u, x, y);
    SurvivorMoves(u, x, y, mine, theirs, feed, p, a);
    TogetherBounds(u, x', y');
    if a.Advance? {
      DisputedAfterAdvance(u, x, y, q, h);
      AdvanceTouches(u, y, x);
      AdvanceWorks(u, y.proc.core);
    } else {
      PumpWorks(u, y, x, feed, feed);
    }
    CatchingUpEndsBadly(u, r, x', y', q, h, mine, theirs, feed, p);
    assert Act(u.game, y.(inbox := q), x, a) == (y'.(inbox := q), x');
    CrashAfterY(u.game, r, x, y.(inbox := q), a);
  }

  lemma FreshStep(u: Setup, r: Role, x: Side, y: Side, q: seq<Msg>, h: History, mine: History, theirs: History,
                  feed: nat -> seq<Command>, p: nat, a: Action)
    requires InStep(u, x, y, mine, theirs, feed, p) && Disputed(u, y.proc.core, q, h)
    requires x.proc.core.nextSample <= u.maxSteps && x.proc.core.step <= u.maxSteps
    requires y.proc.core.nextSample <= u.maxSteps && y.proc.core.step <= u.maxSteps
    requires (a.Deliver? && x.inbox != []) || (a.Advance? && x.proc.core.Ready())
    ensures CanCrash(u.game, r, WorldOf(r, x, y.(inbox := q)))
    decreases Work(u, x, feed) + Work(u, y, feed), 0
  {
    hide CanCrash, PairOk, CoreOk, Stream, TicksLeft, EndsListening, DoReceive;
    var (x', y') := Act(u.game, x, y, a);
    TogetherBounds(u, x, y);
    FreshMoves(u, x, y, mine, theirs, feed, p, a);
    TogetherBounds(u, x', y');
    if a.Advance? {
      AdvanceTouches(u, x, y);
      AdvanceWorks(u, x.proc.core);
    } else {
      DeliverWorks(u, x, y, feed);
      DataAccepted(u, x, y);
    }
    CatchingUpEndsBadly(u, r, x', y, q, h, mine, theirs, feed, p);
    SameForAnyInbox(u, x, y, q, a);
    CrashAfterX(u.game, r, x, y.(inbox := q), a);
  }

  lemma SameForAnyInbox(u: Setup, x: Side, y: Side, q: seq<Msg>, a: Action)
    requires (a.Deliver? && x.proc.Up? && x.inbox != [] && IsData(x.inbox[0])) || a.Advance?
    ensures Act(u.game, x, y.(inbox := q), a) == (Act(u.game, x, y, a).0, y.(inbox := q))
  {
  }

  /// The stale hand-off

  lemma DisputedOnReturn(u: Setup, x: Side, y: Side)
    requires PairOk(u, x, y) && x.proc.Down? && y.proc.Up?
    requires y.inbox != [] && y.inbox[0].RejoinHello? && !CommitFree(y.inbox[1..])
    ensures var c := OnPeerLost(y.proc.core);
            Disputed(u, c, y.inbox[1..] + [RejoinHello], x.sampled) && c.peerNext < u.maxSteps
  {
    hide CoreOk;
    var c, rest := OnPeerLost(y.proc.core), y.inbox[1..];
    var q := rest + [RejoinHello];
    RunningIsOk(u, y, x);
    LostPeerOk(u, y.proc.core, y.sampled, x.sampled);
    StreamCut(ViewOf(c), false, rest, |rest|, [RejoinHello], x.sampled, c.step, u.maxSteps, false);
    assert rest[..|rest|] == rest;
    ShapesOfTail(y.inbox);
    var i :| 0 <= i < |rest| && rest[i].Commit?;
    assert q[i].Commit?;
    CommitMeansTicksLeft(ViewOf(c), false, q, x.sampled, c.step, u.maxSteps);
  }

  /** The survivor answers the stale hello, and the fresh process adopts that answer. */
  lemma AdoptedInStep(u: Setup, x: Side, y: Side, c: Core)
    requires x.role == Other(y.role) && c.role == y.role
    requires CoreOk(u, c, y.sampled, x.sampled) && NothingUncommitted(ViewOf(c))
    ensures c.peerNext <= |x.sampled|
    ensures Together(u, x.(proc := Up(Mirror(c, x.inputDelay), false), inbox := [], sampled := x.sampled[..c.peerNext]),
                     y.(proc := Up(c, false), inbox := []).(inputDelay := c.inputDelay))
  {
    hide Agrees, Buffers;
    MirrorOk(u, c, y.sampled, x.sampled, x.inputDelay);
    TheirHistoryMayChange(u, c, y.sampled, x.sampled, x.sampled[..c.peerNext]);
  }

  lemma StaleHandOff(u: Setup, r: Role, x: Side, y: Side, feed: nat -> seq<Command>)
    requires Faithful(u.game) && PairOk(u, x, y) && x.proc.Down? && y.proc.Up?
    requires y.inbox != [] && y.inbox[0].RejoinHello? && !CommitFree(y.inbox[1..])
    requires TicksLeft(u, y.role, y.sampled, x.sampled, feed)
    ensures CanCrash(u.game, r, WorldOf(r, DoRejoin(x, y).0, DoRejoin(x, y).1))
  {
    hide CanCrash, CoreOk, Stream, TicksLeft, EndsListening, NoticesInOrder, CommitFree;
    var g, c := u.game, OnPeerLost(y.proc.core);
    var q := y.inbox[1..] + [RejoinHello];
    var (x0, y0) := DoRejoin(x, y);
    RunningIsOk(u, y, x);
    assert FirstResync([]).None?;
    HandOff(u, y0, x0);
    assert y0.inbox[1..] == q;
    var (y1, x1) := DoDeliver(g, y0, x0);
    DisputedOnReturn(u, x, y);
    AdoptedInStep(u, x, y, c);
    var x2 := DoDeliver(g, x1, y1).0;
    assert x2 == x.(proc := Up(Mirror(c, x.inputDelay), false), inbox := [], sampled := x.sampled[..c.peerNext]) by {
      assert x1.inbox[1..] == [];
    }
    TogetherBounds(u, x2, y1.(inbox := []));
    CatchingUpEndsBadly(u, r, x2, y1.(inbox := []), q, x.sampled, y.sampled, x.sampled, feed, c.peerNext);
    CrashAfterX(g, r, x1, y1, Deliver);
    CrashAfterY(g, r, x0, y0, Deliver);
  }

  lemma BehindLater(q: seq<Msg>)
    requires CommitBehindHello(q)
    ensures q != []
    ensures if q[0].RejoinHello? then !CommitFree(q[1..]) else CommitBehindHello(q[1..])
  {
    var i, j :| 0 <= i < j < |q| && q[i].RejoinHello? && q[j].Commit?;
    assert q[1..][j - 1].Commit?;
    if i > 0 {
      assert q[1..][i - 1].RejoinHello?;
    }
  }

  lemma ReadsAlone(g: Game, x: Side, y: Side, x': Side, more: seq<Msg>)
    requires y.proc.Up? && y.inbox != [] && !y.inbox[0].RejoinHello?
    ensures var y' := DoDeliver(g, y, x).0;
            && DoDeliver(g, y, x) == (y', x) && y'.inbox == y.inbox[1..] && y'.sampled == y.sampled && y'.role == y.role
            && DoDeliver(g, y.(inbox := y.inbox + more), x') == (y'.(inbox := y'.inbox + more), x')
            && (y'.proc.Up? || y'.proc.Crashed?)
  {
    assert (y.inbox + more)[0] == y.inbox[0] && (y.inbox + more)[1..] == y.inbox[1..] + more;
  }

  /** The survivor reads up to the first unanswered hello; from there the hand-off it gives is stale. */
  lemma {:induction false} ReturnEndsBadly(u: Setup, r: Role, x: Side, y: Side, feed: nat -> seq<Command>)
    requires Faithful(u.game) && PairOk(u, x, y) && x.proc.Down? && y.proc.Up? && CommitBehindHello(y.inbox)
    requires TicksLeft(u, y.role, y.sampled, x.sampled, feed)
    ensures CanCrash(u.game, r, WorldOf(r, DoRejoin(x, y).0, DoRejoin(x, y).1))
    decreases |y.inbox|
  {
    hide CanCrash, SeatOk, TicksLeft, CommitBehindHello, CommitFree, DoDeliver;
    BehindLater(y.inbox);
    if y.inbox[0].RejoinHello? {
      StaleHandOff(u, r, x, y, feed);
    } else {
      var x0, y0 := DoRejoin(x, y).0, DoRejoin(x, y).1;
      ReadsAlone(u.game, x, y, x0, [RejoinHello]);
      OtherKeeps(u, y, x);
      var y' := DoDeliver(u.game, y, x).0;
      NobodyCrashed(u, y', x);
      ReturnEndsBadly(u, r, x, y', feed);
      CrashAfterY(u.game, r, x0, y0, Deliver);
    }
  }

  lemma NobodyCrashed(u: Setup, x: Side, y: Side)
    requires PairOk(u, x, y)
    ensures !x.proc.Crashed? && PairOk(u, y, x)
  {
    hide LiveOk;
  }

  /// The exact condition

  lemma {:induction false} WithoutRejoinsIsAllowed(g: Game, w: World, moves: seq<Move>)
    requires WithoutRejoins(moves)
    ensures AllowedRun(g, w, moves)
  {
    forall i | 0 <= i < |moves|
      ensures Allowed(RunMoves(g, w, moves[..i]), moves[i])
    {
      assert !moves[i].action.Rejoin?;
    }
  }

  lemma NothingCrashes(u: Setup, r: Role, w: World)
    requires Faithful(u.game) && WorldOk(u, w)
    ensures !CanCrash(u.game, r, w)
  {
    forall moves | WithoutRejoins(moves)
      ensures !RunMoves(u.game, w, moves).Get(Other(r)).proc.Crashed?
    {
      WithoutRejoinsIsAllowed(u.game, w, moves);
      AllowedRunKeeps(u, w, moves);
    }
  }

  /** The rejoin race, exactly. In any world that keeps the invariant, with a running survivor and the game
      not over within the ticks the lost seat had sampled: a rejoin can be followed by moves, none of them
      another rejoin, that stop the survivor with a protocol error if and only if a commit is queued at the
      survivor behind a hello that is still to be answered. */
  lemma RejoinIsSafeIff(u: Setup, w: World, r: Role, feed: nat -> seq<Command>)
    requires Faithful(u.game) && WorldOk(u, w) && w.Get(r).proc.Down? && w.Get(Other(r)).proc.Up?
    requires TicksLeft(u, Other(r), w.Get(Other(r)).sampled, w.Get(r).sampled, feed)
    ensures CanCrash(u.game, r, Next(u.game, w, Move(r, Rejoin))) <==> CommitBehindHello(w.Get(Other(r)).inbox)
  {
    hide CanCrash, TicksLeft, CommitBehindHello;
    var x, y := w.Get(r), w.Get(Other(r));
    OfPair(u, w, r);
    if CommitBehindHello(y.inbox) {
      ReturnEndsBadly(u, r, x, y, feed);
    } else {
      NextKeeps(u, w, Move(r, Rejoin));
      NothingCrashes(u, r, Next(u.game, w, Move(r, Rejoin)));
    }
  }

  lemma OfPair(u: Setup, w: World, r: Role)
    requires WorldOk(u, w)
    ensures PairOk(u, w.Get(r), w.Get(Other(r))) && w.Get(Other(r)).role == Other(r)
  {
    hide SeatOk;
  }

  /// Every reachable world

  /** A seat `y` that is not running has no commit queued behind a hello, and no hello at all from a peer
      that is in play. */
  predicate Unheard(g: Game, x: Side, y: Side) {
    && (y.proc.Down? ==> y.inbox == [])
    && (y.proc.Joining? ==> !CommitBehindHello(y.inbox) && (LiveOf(g, x).Some? ==> !HasHello(y.inbox)))
  }

  lemma UnheardPump(g: Game, x: Side, y: Side, feed: nat -> seq<Command>)
    requires x.proc.Up? && Unheard(g, x, y)
    ensures var (x', y') := DoPump(x, y, feed); Unheard(g, x', y') && Unheard(g, y', x')
  {
    PumpIsData(x.proc.core, feed);
  }

  lemma UnheardDeliver(u: Setup, x: Side, y: Side)
    requires PairOk(u, x, y) && Unheard(u.game, x, y) && Unheard(u.game, y, x)
    ensures var (x', y') := DoDeliver(u.game, x, y); Unheard(u.game, x', y') && Unheard(u.game, y', x')
  {
    hide LiveOk, DoReceive, DoAwait, PairOk;
    if x.proc.Joining? && x.inbox != [] {
      AwaitKeeps(u, x, y);
      ShapesOfTail(x.inbox);
      HelloInTail(x.inbox);
      AwaitingOrUp(u, x, y);
    } else if x.proc.Up? && x.inbox != [] {
      UnheardReceive(u, x, y);
    }
  }

  lemma AwaitingOrUp(u: Setup, x: Side, y: Side)
    requires PairOk(u, x, y) && x.proc.Joining? && x.inbox != []
    ensures var x' := DoDeliver(u.game, x, y).0;
            && (x'.proc.Up? || (x'.proc.Joining? && x'.inbox == x.inbox[1..]))
            && LiveOf(u.game, x') == LiveOf(u.game, x)
  {
    hide LiveOk;
  }

  lemma NoHelloSent(q: seq<Msg>, r: Resync)
    requires !HasHello(q)
    ensures !HasHello(q + [ResyncMsg(r)]) && !CommitBehindHello(q + [ResyncMsg(r)])
  {
  }

  lemma UnheardReceive(u: Setup, x: Side, y: Side)
    requires x.proc.Up? && x.inbox != [] && Unheard(u.game, x, y)
    ensures var (x', y') := DoDeliver(u.game, x, y); Unheard(u.game, x', y') && Unheard(u.game, y', x')
  {
    hide LiveOf, CommitBehindHello, HasHello, OnPeerLost, OnPeerCommand, OnPeerCommit, MakeResync;
    if y.proc.Joining? {
      InPlay(u.game, x);
      NoHelloSent(y.inbox, MakeResync(u.game, OnPeerLost(x.proc.core)));
    }
  }

  lemma InPlay(g: Game, x: Side)
    requires x.proc.Up?
    ensures LiveOf(g, x).Some?
  {
  }

  lemma UnheardLoss(g: Game, x: Side, y: Side, kept: nat, noticed: bool)
    requires Unheard(g, x, y)
    ensures var (x', y') := DoDie(x, y, kept, noticed); Unheard(g, x', y') && Unheard(g, y', x')
  {
    var y' := DoDie(x, y, kept, noticed).1;
    assert forall i :: 0 <= i < |y'.inbox| && i < Min(kept, |y.inbox|) ==> y'.inbox[i] == y.inbox[i];
  }

  lemma UnheardRejoin(g: Game, x: Side, y: Side)
    requires x.proc.Down? && Unheard(g, x, y)
    ensures var (x', y') := DoRejoin(x, y); Unheard(g, x', y') && Unheard(g, y', x')
  {
  }

  lemma ActKeepsUnheard(u: Setup, x: Side, y: Side, a: Action)
    requires PairOk(u, x, y) && Unheard(u.game, x, y) && Unheard(u.game, y, x)
    ensures var (x', y') := Act(u.game, x, y, a); Unheard(u.game, x', y') && Unheard(u.game, y', x')
  {
    hide PairOk, DoPump, DoDeliver, DoDie, DoRejoin, Advanced, CommitBehindHello, HasHello;
    match a
    case Pump(feed) => if x.proc.Up? && !x.proc.holding { UnheardPump(u.game, x, y, feed); }
    case Deliver => UnheardDeliver(u, x, y);
    case Die(kept, noticed) => UnheardLoss(u.game, x, y, kept, noticed);
    case Rejoin => if x.proc.Down? { UnheardRejoin(u.game, x, y); }
    case _ =>
  }

  lemma {:induction false} NobodyUnheard(u: Setup, delayI: nat, delayH: nat, moves: seq<Move>, r: Role)
    requires Faithful(u.game) && AllowedRun(u.game, FreshWorld(u, delayI, delayH), moves)
    ensures var w := RunMoves(u.game, FreshWorld(u, delayI, delayH), moves);
            Unheard(u.game, w.Get(r), w.Get(Other(r))) && Unheard(u.game, w.Get(Other(r)), w.Get(r))
  {
    hide Unheard, Act;
    var w0 := FreshWorld(u, delayI, delayH);
    if moves == [] {
      NothingQueued(u, delayI, delayH);
    } else {
      var n := |moves| - 1;
      var m, w := moves[n], RunMoves(u.game, w0, moves[..n]);
      AllowedFront(u.game, w0, moves);
      NobodyUnheard(u, delayI, delayH, moves[..n], m.role);
      PairInvariant(u, delayI, delayH, moves[..n], w, m.role);
      ActKeepsUnheard(u, w.Get(m.role), w.Get(Other(m.role)), m.action);
    }
  }

  lemma NothingQueued(u: Setup, delayI: nat, delayH: nat)
    ensures var w := FreshWorld(u, delayI, delayH);
            Unheard(u.game, w.infiltrator, w.hacker) && Unheard(u.game, w.hacker, w.infiltrator)
  {
  }

  /** In every reachable world a rejoin is allowed exactly if no moves after it, other than further rejoins,
      can stop the survivor with a protocol error, as long as a running survivor's game is not over within
      the ticks the lost seat had sampled. */
  lemma AllowedExactlyIfSafe(u: Setup, delayI: nat, delayH: nat, moves: seq<Move>, w: World, r: Role,
                             feed: nat -> seq<Command>)
    requires Faithful(u.game) && Reachable(u, delayI, delayH, moves, w) && w.Get(r).proc.Down?
    requires w.Get(Other(r)).proc.Up? ==>
               TicksLeft(u, Other(r), w.Get(Other(r)).sampled, w.Get(r).sampled, feed)
    ensures Allowed(w, Move(r, Rejoin)) <==> !CanCrash(u.game, r, Next(u.game, w, Move(r, Rejoin)))
  {
    hide CanCrash, TicksLeft, WorldOk, AllowedRun;
    EveryRunKeepsTheInvariant(u, delayI, delayH, moves);
    if w.Get(Other(r)).proc.Up? {
      RejoinIsSafeIff(u, w, r, feed);
    } else {
      NobodyUnheard(u, delayI, delayH, moves, r);
      NoSeatEverCrashes(u, delayI, delayH, moves, w, Other(r));
      NextKeeps(u, w, Move(r, Rejoin));
      NothingCrashes(u, r, Next(u.game, w, Move(r, Rejoin)));
    }
  }
}
