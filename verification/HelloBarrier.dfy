/** The batch session: two seats meet over a relay that delivers to current members and keeps no history,
    exchange hellos as a barrier, stream their schedules and collect each other's. */
module HelloBarrier {
  import opened Commands
  import opened Envelope
  import opened SeatSplit

  datatype Broadcast =
    | PeerJoined
    | HelloFrom(hello: Hello)
    | Scheduled(command: ScheduledCommand)
    | DigestFrom
    | PeerLeft

  datatype Phase =
    | Outside
    | Joined
    | Waiting
    | Streaming(sent: nat, owed: nat)
    | Collecting(got: seq<ScheduledCommand>, expected: nat)
    | Done(peer: seq<ScheduledCommand>)
    | Departed(took: seq<ScheduledCommand>)
    | Lost(partial: seq<ScheduledCommand>)
    | Refused

  datatype Seat = Seat(hello: Hello, schedule: seq<ScheduledCommand>, phase: Phase, inbox: seq<Broadcast>)

  datatype Step = Join | Announce | Hear | Stream | Collect | Leave

  /// The relay

  predicate IsMember(x: Seat) {
    !x.phase.Outside? && !x.phase.Departed?
  }

  function Relay(to: Seat, b: Broadcast): Seat {
    if IsMember(to) then to.(inbox := to.inbox + [b]) else to
  }

  /// One seat's steps

  /** `WaitingForPeer`: answer a join with our hello, stop at the peer's hello, drop anything else. */
  function DoHear(x: Seat, y: Seat): (Seat, Seat)
    requires x.phase.Waiting? && x.inbox != []
  {
    var rest := x.(inbox := x.inbox[1..]);
    match x.inbox[0]
    case PeerJoined => (rest, Relay(y, HelloFrom(x.hello)))
    case HelloFrom(h) =>
      if h.role == x.hello.role then (rest, y)
      else if x.hello.CompatibleWith(h) then (rest.(phase := Streaming(0, h.commands)), y)
      else (rest.(phase := Refused), y)
    case _ => (rest, y)
  }

  function DoStream(x: Seat, y: Seat): (Seat, Seat)
    requires x.phase.Streaming?
  {
    var n := x.phase.sent;
    if n < |x.schedule| then (x.(phase := Streaming(n + 1, x.phase.owed)), Relay(y, Scheduled(x.schedule[n])))
    else (x.(phase := Collecting([], x.phase.owed)), y)
  }

  /** Collecting: done at the announced count; a departure while commands are owed is a loss. */
  function DoCollect(x: Seat, y: Seat): (Seat, Seat)
    requires x.phase.Collecting?
  {
    var got, expected := x.phase.got, x.phase.expected;
    if |got| >= expected then (x.(phase := Done(got)), Relay(y, DigestFrom))
    else if x.inbox == [] then (x, y)
    else
      var rest := x.(inbox := x.inbox[1..]);
      match x.inbox[0]
      case Scheduled(c) => (rest.(phase := Collecting(got + [c], expected)), y)
      case PeerLeft => (rest.(phase := Lost(got)), y)
      case _ => (rest, y)
  }

  function Do(x: Seat, y: Seat, s: Step): (Seat, Seat) {
    match s
    case Join => if x.phase.Outside? then (x.(phase := Joined), Relay(y, PeerJoined)) else (x, y)
    case Announce => if x.phase.Joined? then (x.(phase := Waiting), Relay(y, HelloFrom(x.hello))) else (x, y)
    case Hear => if x.phase.Waiting? && x.inbox != [] then DoHear(x, y) else (x, y)
    case Stream => if x.phase.Streaming? then DoStream(x, y) else (x, y)
    case Collect => if x.phase.Collecting? then DoCollect(x, y) else (x, y)
    case Leave =>
      if x.phase.Done? then (x.(phase := Departed(x.phase.peer), inbox := []), Relay(y, PeerLeft)) else (x, y)
  }

  /// The invariant

  function CommandsIn(q: seq<Broadcast>): seq<ScheduledCommand> {
    if q == [] then []
    else (if q[0].Scheduled? then [q[0].command] else []) + CommandsIn(q[1..])
  }

  /** The peer's hello is still to come, and no command comes before it. */
  predicate HelloFirst(q: seq<Broadcast>) {
    exists i :: 0 <= i < |q| && q[i].HelloFrom? && forall j :: 0 <= j < i ==> !q[j].Scheduled?
  }

  /** A join is still to be answered, and no hello comes before it. */
  predicate JoinFirst(q: seq<Broadcast>) {
    exists i :: 0 <= i < |q| && q[i].PeerJoined? && forall j :: 0 <= j < i ==> !q[j].HelloFrom?
  }

  predicate Heard(x: Seat) {
    !x.phase.Outside? && !x.phase.Joined? && !x.phase.Waiting?
  }

  function SentSoFar(x: Seat): seq<ScheduledCommand> {
    match x.phase
    case Streaming(n, _) => if n <= |x.schedule| then x.schedule[..n] else x.schedule
    case Collecting(_, _) => x.schedule
    case Done(_) => x.schedule
    case Departed(_) => x.schedule
    case _ => []
  }

  function GotSoFar(x: Seat): seq<ScheduledCommand> {
    match x.phase
    case Collecting(got, _) => got
    case Done(got) => got
    case _ => []
  }

  predicate Honest(x: Seat) {
    x.hello.commands == |x.schedule|
  }

  /** The hellos in `q` are the peer's own, and its departure is the last thing it is heard to do. */
  predicate InboxShape(q: seq<Broadcast>, y: Seat) {
    && (forall i :: 0 <= i < |q| && q[i].HelloFrom? ==> q[i].hello == y.hello)
    && (forall i :: 0 <= i < |q| && q[i].PeerLeft? ==> i == |q| - 1 && y.phase.Departed?)
  }

  /** What holds of `x`'s inbox and phase, given its peer `y`. */
  predicate Toward(x: Seat, y: Seat) {
    && Honest(x)
    && !x.phase.Lost? && !x.phase.Refused?
    && InboxShape(x.inbox, y)
    && (y.phase.Outside? ==> x.inbox == [])
    && (x.phase.Outside? ==> x.inbox == [])
    && (!Heard(y) && !y.phase.Waiting? ==> !Heard(x) && forall i :: 0 <= i < |x.inbox| ==> !x.inbox[i].HelloFrom?)
    && (x.phase.Streaming? ==> x.phase.sent <= |x.schedule| && x.phase.owed == |y.schedule|)
    && (x.phase.Collecting? ==> x.phase.expected == |y.schedule|)
    && (x.phase.Done? ==> x.phase.peer == y.schedule)
    && (x.phase.Departed? ==> x.phase.took == y.schedule)
    && (IsMember(x) ==> GotSoFar(x) + CommandsIn(x.inbox) == SentSoFar(y))
    && (IsMember(x) && !Heard(x) && y.phase.Waiting? ==> HelloFirst(x.inbox) || JoinFirst(y.inbox))
    && (IsMember(x) && !Heard(x) && Heard(y) ==> HelloFirst(x.inbox))
  }

  predicate Met(x: Seat, y: Seat) {
    && x.hello.role != y.hello.role
    && x.hello.CompatibleWith(y.hello)
    && Toward(x, y)
    && Toward(y, x)
  }

  lemma {:induction false} CommandsInConcat(a: seq<Broadcast>, b: seq<Broadcast>)
    ensures CommandsIn(a + b) == CommandsIn(a) + CommandsIn(b)
  {
    hide CommandsIn;
    if a == [] {
      CommandsInNone();
      assert a + b == b;
    } else {
      CommandsInTail(a);
      CommandsInTail(a + b);
      assert (a + b)[1..] == a[1..] + b;
      CommandsInConcat(a[1..], b);
    }
  }

  lemma CommandsInOne(q: seq<Broadcast>, b: Broadcast)
    ensures CommandsIn(q + [b]) == CommandsIn(q) + (if b.Scheduled? then [b.command] else [])
  {
    CommandsInConcat(q, [b]);
    assert [b][1..] == [];
  }

  lemma CommandsInNone()
    ensures CommandsIn([]) == []
  {
  }

  lemma CommandsInTail(q: seq<Broadcast>)
    requires q != []
    ensures CommandsIn(q) == (if q[0].Scheduled? then [q[0].command] else []) + CommandsIn(q[1..])
    ensures !q[0].Scheduled? ==> CommandsIn(q) == CommandsIn(q[1..])
  {
  }

  lemma FirstsOfMore(q: seq<Broadcast>, b: Broadcast)
    ensures HelloFirst(q) ==> HelloFirst(q + [b])
    ensures JoinFirst(q) ==> JoinFirst(q + [b])
    ensures b.HelloFrom? && CommandsIn(q) == [] ==> HelloFirst(q + [b])
    ensures b.PeerJoined? && q == [] ==> JoinFirst(q + [b])
  {
    if HelloFirst(q) {
      var i :| 0 <= i < |q| && q[i].HelloFrom? && forall j :: 0 <= j < i ==> !q[j].Scheduled?;
      assert (q + [b])[i].HelloFrom?;
    }
    if JoinFirst(q) {
      var i :| 0 <= i < |q| && q[i].PeerJoined? && forall j :: 0 <= j < i ==> !q[j].HelloFrom?;
      assert (q + [b])[i].PeerJoined?;
    }
    if b.HelloFrom? && CommandsIn(q) == [] {
      NoCommandsMeansNone(q);
      assert (q + [b])[|q|].HelloFrom?;
    }
    if b.PeerJoined? && q == [] {
      assert (q + [b])[0].PeerJoined?;
    }
  }

  lemma {:induction false} NoCommandsMeansNone(q: seq<Broadcast>)
    requires CommandsIn(q) == []
    ensures forall i :: 0 <= i < |q| ==> !q[i].Scheduled?
  {
    if q != [] {
      NoCommandsMeansNone(q[1..]);
      assert forall i :: 0 < i < |q| ==> q[i] == q[1..][i - 1];
    }
  }

  lemma FirstsOfTail(q: seq<Broadcast>)
    requires q != []
    ensures HelloFirst(q) && !q[0].HelloFrom? ==> !q[0].Scheduled? && HelloFirst(q[1..])
    ensures JoinFirst(q) && !q[0].PeerJoined? ==> !q[0].HelloFrom? && JoinFirst(q[1..])
  {
    if HelloFirst(q) && !q[0].HelloFrom? {
      var i :| 0 <= i < |q| && q[i].HelloFrom? && forall j :: 0 <= j < i ==> !q[j].Scheduled?;
      assert q[1..][i - 1].HelloFrom?;
    }
    if JoinFirst(q) && !q[0].PeerJoined? {
      var i :| 0 <= i < |q| && q[i].PeerJoined? && forall j :: 0 <= j < i ==> !q[j].HelloFrom?;
      assert q[1..][i - 1].PeerJoined?;
    }
  }

  lemma JoinKeeps(x: Seat, y: Seat)
    requires Met(x, y) && x.phase.Outside?
    ensures var (x', y') := Do(x, y, Join); Met(x', y')
  {
    hide CommandsIn, HelloFirst, JoinFirst, Hello.CompatibleWith;
    assert CommandsIn([]) == [] by { CommandsInNone(); }
    CommandsInOne(y.inbox, PeerJoined);
    FirstsOfMore(y.inbox, PeerJoined);
  }

  lemma AnnounceKeeps(x: Seat, y: Seat)
    requires Met(x, y) && x.phase.Joined?
    ensures var (x', y') := Do(x, y, Announce); Met(x', y')
  {
    hide CommandsIn, HelloFirst, JoinFirst, Hello.CompatibleWith;
    CommandsInOne(y.inbox, HelloFrom(x.hello));
    FirstsOfMore(y.inbox, HelloFrom(x.hello));
  }

  /** A waiting seat never meets a command: the peer's hello is always ahead of it. */
  lemma NoCommandIsHeardWaiting(x: Seat, y: Seat)
    requires Met(x, y) && x.phase.Waiting? && x.inbox != []
    ensures !x.inbox[0].Scheduled?
  {
    if Heard(y) {
      FirstsOfTail(x.inbox);
    } else {
      assert CommandsIn(x.inbox) == [];
      NoCommandsMeansNone(x.inbox);
    }
  }

  lemma AnswerJoinToward(x: Seat, y: Seat)
    requires Met(x, y) && x.phase.Waiting? && x.inbox != [] && x.inbox[0].PeerJoined?
    ensures Toward(x.(inbox := x.inbox[1..]), Relay(y, HelloFrom(x.hello)))
  {
    hide CommandsIn, HelloFirst, JoinFirst, Hello.CompatibleWith;
    CommandsInTail(x.inbox);
    FirstsOfTail(x.inbox);
    CommandsInOne(y.inbox, HelloFrom(x.hello));
    FirstsOfMore(y.inbox, HelloFrom(x.hello));
  }

  lemma AnswerJoinFrom(x: Seat, y: Seat)
    requires Met(x, y) && x.phase.Waiting? && x.inbox != [] && x.inbox[0].PeerJoined?
    ensures Toward(Relay(y, HelloFrom(x.hello)), x.(inbox := x.inbox[1..]))
  {
    hide CommandsIn, HelloFirst, JoinFirst, Hello.CompatibleWith;
    CommandsInTail(x.inbox);
    FirstsOfTail(x.inbox);
    CommandsInOne(y.inbox, HelloFrom(x.hello));
    FirstsOfMore(y.inbox, HelloFrom(x.hello));
  }

  lemma AnswerJoinKeeps(x: Seat, y: Seat)
    requires Met(x, y) && x.phase.Waiting? && x.inbox != [] && x.inbox[0].PeerJoined?
    ensures var (x', y') := DoHear(x, y); Met(x', y')
  {
    hide Toward, Hello.CompatibleWith;
    AnswerJoinToward(x, y);
    AnswerJoinFrom(x, y);
  }

  lemma PassBarrierToward(x: Seat, y: Seat)
    requires Met(x, y) && x.phase.Waiting? && x.inbox != [] && x.inbox[0].HelloFrom?
    ensures DoHear(x, y) == (x.(inbox := x.inbox[1..], phase := Streaming(0, |y.schedule|)), y)
    ensures Toward(DoHear(x, y).0, y)
  {
    hide CommandsIn, HelloFirst, JoinFirst, Hello.CompatibleWith;
    CommandsInTail(x.inbox);
    assert x.inbox[0].hello == y.hello;
  }

  lemma PassBarrierFrom(x: Seat, y: Seat, x': Seat)
    requires Met(x, y) && x.phase.Waiting? && x.inbox != [] && x.inbox[0].HelloFrom?
    requires x' == x.(inbox := x.inbox[1..], phase := Streaming(0, |y.schedule|))
    ensures Toward(y, x')
  {
    hide CommandsIn, HelloFirst, JoinFirst, Hello.CompatibleWith;
    FirstsOfTail(x.inbox);
  }

  lemma PassBarrierKeeps(x: Seat, y: Seat)
    requires Met(x, y) && x.phase.Waiting? && x.inbox != [] && x.inbox[0].HelloFrom?
    ensures var (x', y') := DoHear(x, y); Met(x', y')
  {
    hide Toward, Hello.CompatibleWith;
    PassBarrierToward(x, y);
    PassBarrierFrom(x, y, DoHear(x, y).0);
  }

  lemma StrayKeeps(x: Seat, y: Seat)
    requires Met(x, y) && x.phase.Waiting? && x.inbox != []
    requires !x.inbox[0].HelloFrom? && !x.inbox[0].PeerJoined?
    ensures var (x', y') := DoHear(x, y); Met(x', y')
  {
    hide CommandsIn, HelloFirst, JoinFirst, Hello.CompatibleWith;
    CommandsInTail(x.inbox);
    NoCommandIsHeardWaiting(x, y);
    FirstsOfTail(x.inbox);
  }

  lemma HearKeeps(x: Seat, y: Seat)
    requires Met(x, y) && x.phase.Waiting? && x.inbox != []
    ensures var (x', y') := DoHear(x, y); Met(x', y')
  {
    match x.inbox[0]
    case PeerJoined => AnswerJoinKeeps(x, y);
    case HelloFrom(_) => PassBarrierKeeps(x, y);
    case _ => StrayKeeps(x, y);
  }

  lemma StreamOneKeeps(x: Seat, y: Seat)
    requires Met(x, y) && x.phase.Streaming? && x.phase.sent < |x.schedule|
    ensures var (x', y') := DoStream(x, y); Met(x', y')
  {
    hide CommandsIn, HelloFirst, JoinFirst, Hello.CompatibleWith;
    var n := x.phase.sent;
    CommandsInOne(y.inbox, Scheduled(x.schedule[n]));
    FirstsOfMore(y.inbox, Scheduled(x.schedule[n]));
    OneMoreSent(GotSoFar(y), CommandsIn(y.inbox), x.schedule, n);
  }

  lemma OneMoreSent(got: seq<ScheduledCommand>, coming: seq<ScheduledCommand>, schedule: seq<ScheduledCommand>, n: nat)
    requires n < |schedule|
    ensures got + coming == schedule[..n] ==> got + (coming + [schedule[n]]) == schedule[..n + 1]
  {
    if got + coming == schedule[..n] {
      assert got + (coming + [schedule[n]]) == schedule[..n] + [schedule[n]];
    }
  }

  lemma StreamKeeps(x: Seat, y: Seat)
    requires Met(x, y) && x.phase.Streaming?
    ensures var (x', y') := DoStream(x, y); Met(x', y')
  {
    hide CommandsIn, HelloFirst, JoinFirst, Hello.CompatibleWith;
    if x.phase.sent < |x.schedule| {
      StreamOneKeeps(x, y);
    } else {
      assert x.schedule[..|x.schedule|] == x.schedule;
    }
  }

  lemma DepartureIsLast(q: seq<Broadcast>, y: Seat)
    requires InboxShape(q, y) && q != [] && q[0].PeerLeft?
    ensures y.phase.Departed? && CommandsIn(q) == []
  {
    assert q == [PeerLeft];
  }

  /** A collecting seat still owed commands never meets a departure. */
  lemma NoDepartureWhileOwed(x: Seat, y: Seat)
    requires Met(x, y) && x.phase.Collecting? && |x.phase.got| < x.phase.expected && x.inbox != []
    ensures !x.inbox[0].PeerLeft?
  {
    if x.inbox[0].PeerLeft? {
      DepartureIsLast(x.inbox, y);
    }
  }

  lemma CompleteKeeps(x: Seat, y: Seat)
    requires Met(x, y) && x.phase.Collecting? && |x.phase.got| >= x.phase.expected
    ensures var (x', y') := DoCollect(x, y); Met(x', y')
  {
    hide CommandsIn, HelloFirst, JoinFirst, Hello.CompatibleWith;
    CommandsInOne(y.inbox, DigestFrom);
    FirstsOfMore(y.inbox, DigestFrom);
    CollectedAll(x, y);
  }

  lemma CollectKeeps(x: Seat, y: Seat)
    requires Met(x, y) && x.phase.Collecting?
    ensures var (x', y') := DoCollect(x, y); Met(x', y')
  {
    hide CommandsIn, HelloFirst, JoinFirst, Hello.CompatibleWith;
    var got := x.phase.got;
    if |got| >= x.phase.expected {
      CompleteKeeps(x, y);
    } else if x.inbox != [] {
      CommandsInTail(x.inbox);
      NoDepartureWhileOwed(x, y);
      if x.inbox[0].Scheduled? {
        var c, rest := x.inbox[0].command, CommandsIn(x.inbox[1..]);
        assert got + ([c] + rest) == got + [c] + rest;
      }
    }
  }

  lemma CollectedAll(x: Seat, y: Seat)
    requires Met(x, y) && x.phase.Collecting? && |x.phase.got| >= x.phase.expected
    ensures x.phase.got == y.schedule && CommandsIn(x.inbox) == []
  {
    assert |SentSoFar(y)| <= |y.schedule|;
    assert x.phase.got + CommandsIn(x.inbox) == SentSoFar(y);
  }

  lemma LeaveKeeps(x: Seat, y: Seat)
    requires Met(x, y) && x.phase.Done?
    ensures var (x', y') := Do(x, y, Leave); Met(x', y')
  {
    hide CommandsIn, HelloFirst, JoinFirst, Hello.CompatibleWith;
    CommandsInOne(y.inbox, PeerLeft);
    FirstsOfMore(y.inbox, PeerLeft);
  }

  lemma StepKeeps(x: Seat, y: Seat, s: Step)
    requires Met(x, y)
    ensures var (x', y') := Do(x, y, s); Met(x', y') && x'.hello == x.hello && x'.schedule == x.schedule
  {
    match s
    case Join => if x.phase.Outside? { JoinKeeps(x, y); }
    case Announce => if x.phase.Joined? { AnnounceKeeps(x, y); }
    case Hear => if x.phase.Waiting? && x.inbox != [] { HearKeeps(x, y); }
    case Stream => if x.phase.Streaming? { StreamKeeps(x, y); }
    case Collect => if x.phase.Collecting? { CollectKeeps(x, y); }
    case Leave => if x.phase.Done? { LeaveKeeps(x, y); }
  }

  /// Whole sessions

  datatype Session = Session(infiltrator: Seat, hacker: Seat)

  function Next(s: Session, r: Role, step: Step): Session {
    if r == Infiltrator then
      var (x, y) := Do(s.infiltrator, s.hacker, step); Session(x, y)
    else
      var (y, x) := Do(s.hacker, s.infiltrator, step); Session(x, y)
  }

  function Play(s: Session, steps: seq<(Role, Step)>): Session {
    if steps == [] then s
    else
      var last := steps[|steps| - 1];
      Next(Play(s, steps[..|steps| - 1]), last.0, last.1)
  }

  function Opening(mine: Hello, scheduleI: seq<ScheduledCommand>, theirs: Hello,
                   scheduleH: seq<ScheduledCommand>): Session {
    Session(Seat(mine, scheduleI, Outside, []), Seat(theirs, scheduleH, Outside, []))
  }

  predicate FairOpening(s: Session) {
    && s == Opening(s.infiltrator.hello, s.infiltrator.schedule, s.hacker.hello, s.hacker.schedule)
    && Honest(s.infiltrator) && Honest(s.hacker)
    && s.infiltrator.hello.role != s.hacker.hello.role
    && s.infiltrator.hello.CompatibleWith(s.hacker.hello)
  }

  /** For every join order and interleaving the barrier's invariant holds: in particular no seat is ever
      refused, loses its peer, or meets a command before the peer's hello. */
  lemma {:induction false} EverySessionMeets(s: Session, steps: seq<(Role, Step)>)
    requires FairOpening(s)
    ensures var e := Play(s, steps);
            && Met(e.infiltrator, e.hacker)
            && e.infiltrator.schedule == s.infiltrator.schedule && e.hacker.schedule == s.hacker.schedule
  {
    if steps != [] {
      var n := |steps| - 1;
      EverySessionMeets(s, steps[..n]);
      var e := Play(s, steps[..n]);
      if steps[n].0 == Infiltrator {
        StepKeeps(e.infiltrator, e.hacker, steps[n].1);
        PeerIsKept(e.infiltrator, e.hacker, steps[n].1);
      } else {
        StepKeeps(e.hacker, e.infiltrator, steps[n].1);
        PeerIsKept(e.hacker, e.infiltrator, steps[n].1);
      }
    }
  }

  lemma PeerIsKept(x: Seat, y: Seat, s: Step)
    ensures var (_, y') := Do(x, y, s); y'.schedule == y.schedule && y'.hello == y.hello && y'.phase == y.phase
  {
  }

  /** What a seat collects is exactly its peer's schedule, in order. */
  lemma CollectedIsTheSchedule(s: Session, steps: seq<(Role, Step)>)
    requires FairOpening(s)
    ensures var e := Play(s, steps);
            && !e.infiltrator.phase.Lost? && !e.hacker.phase.Lost?
            && (e.infiltrator.phase.Done? ==> e.infiltrator.phase.peer == s.hacker.schedule)
            && (e.hacker.phase.Done? ==> e.hacker.phase.peer == s.infiltrator.schedule)
            && (e.infiltrator.phase.Departed? ==> e.infiltrator.phase.took == s.hacker.schedule)
            && (e.hacker.phase.Departed? ==> e.hacker.phase.took == s.infiltrator.schedule)
  {
    EverySessionMeets(s, steps);
  }

  /** Until a seat holds the peer's hello, whatever it consumes is not a command. */
  lemma HelloComesFirst(s: Session, steps: seq<(Role, Step)>)
    requires FairOpening(s)
    ensures var e := Play(s, steps);
            && (e.infiltrator.phase.Waiting? && e.infiltrator.inbox != [] ==> !e.infiltrator.inbox[0].Scheduled?)
            && (e.hacker.phase.Waiting? && e.hacker.inbox != [] ==> !e.hacker.inbox[0].Scheduled?)
  {
    EverySessionMeets(s, steps);
    var e := Play(s, steps);
    if e.infiltrator.phase.Waiting? && e.infiltrator.inbox != [] {
      NoCommandIsHeardWaiting(e.infiltrator, e.hacker);
    }
    if e.hacker.phase.Waiting? && e.hacker.inbox != [] {
      NoCommandIsHeardWaiting(e.hacker, e.infiltrator);
    }
  }

  /// Nobody waits forever

  predicate Stuck(x: Seat, y: Seat) {
    forall s: Step :: Do(x, y, s) == (x, y)
  }

  lemma EveryReadConsumes(x: Seat, y: Seat)
    requires x.inbox != []
    ensures x.phase.Waiting? ==> DoHear(x, y).0 != x
    ensures x.phase.Collecting? && |x.phase.got| < x.phase.expected ==> DoCollect(x, y).0 != x
  {
    assert x.phase.Waiting? ==> |DoHear(x, y).0.inbox| < |x.inbox|;
    assert x.phase.Collecting? && |x.phase.got| < x.phase.expected ==> |DoCollect(x, y).0.inbox| < |x.inbox|;
  }

  lemma StuckHearing(x: Seat, y: Seat)
    requires Do(x, y, Hear) == (x, y) && x.phase.Waiting?
    ensures x.inbox == []
  {
    if x.inbox != [] {
      EveryReadConsumes(x, y);
    }
  }

  lemma StuckCollecting(x: Seat, y: Seat)
    requires Do(x, y, Collect) == (x, y) && x.phase.Collecting?
    ensures x.inbox == [] && |x.phase.got| < x.phase.expected
  {
    if x.inbox != [] {
      EveryReadConsumes(x, y);
    }
  }

  lemma StuckStreaming(x: Seat, y: Seat)
    requires Do(x, y, Stream) == (x, y)
    ensures !x.phase.Streaming?
  {
  }

  lemma StuckPhases(x: Seat, y: Seat)
    requires Met(x, y) && Stuck(x, y)
    ensures x.phase.Waiting? || x.phase.Collecting? || x.phase.Departed?
    ensures x.phase.Waiting? ==> x.inbox == []
    ensures x.phase.Collecting? ==> x.inbox == [] && |x.phase.got| < x.phase.expected
  {
    assert Do(x, y, Join) == (x, y) && Do(x, y, Announce) == (x, y) && Do(x, y, Leave) == (x, y);
    StuckStreaming(x, y);
    if x.phase.Waiting? {
      StuckHearing(x, y);
    } else if x.phase.Collecting? {
      StuckCollecting(x, y);
    }
  }

  /** No step is possible only once both seats have collected everything and left. */
  lemma StuckMeansLeft(x: Seat, y: Seat)
    requires Met(x, y) && Stuck(x, y) && Stuck(y, x)
    ensures x.phase.Departed? && y.phase.Departed?
  {
    StuckPhases(x, y);
    StuckPhases(y, x);
    assert CommandsIn([]) == [];
  }

  /// A bound on sessions

  /** Reading a join sends one more message; every other message costs its reader one step at most. */
  function Unread(q: seq<Broadcast>): nat {
    if q == [] then 0 else (if q[0].PeerJoined? then 2 else 1) + Unread(q[1..])
  }

  lemma {:induction false} UnreadOfMore(q: seq<Broadcast>, b: Broadcast)
    ensures Unread(q + [b]) == Unread(q) + (if b.PeerJoined? then 2 else 1)
  {
    if q == [] {
      assert q + [b] == [b] && [b][1..] == [];
    } else {
      assert (q + [b])[1..] == q[1..] + [b];
      UnreadOfMore(q[1..], b);
    }
  }

  function Unsent(x: Seat, sent: nat): nat {
    if sent <= |x.schedule| then 2 * (|x.schedule| - sent) else 0
  }

  /** What a seat still has to do: phases to go through, commands to send, messages to read. */
  function StepsLeft(x: Seat): nat {
    Unread(x.inbox) +
    match x.phase
    case Outside => Unsent(x, 0) + 10
    case Joined => Unsent(x, 0) + 7
    case Waiting => Unsent(x, 0) + 5
    case Streaming(sent, _) => Unsent(x, sent) + 5
    case Collecting(_, _) => 4
    case Done(_) => 2
    case _ => 0
  }

  lemma RelayCosts(to: Seat, b: Broadcast)
    ensures StepsLeft(Relay(to, b)) <= StepsLeft(to) + (if b.PeerJoined? then 2 else 1)
  {
    UnreadOfMore(to.inbox, b);
  }

  /** Whatever either seat does, between any two seats: nothing changes, or less is left to do. */
  lemma EveryStepIsProgress(x: Seat, y: Seat, s: Step)
    ensures var (x', y') := Do(x, y, s);
            (x', y') == (x, y) || StepsLeft(x') + StepsLeft(y') < StepsLeft(x) + StepsLeft(y)
  {
    hide Hello.CompatibleWith, Relay;
    match s
    case Join => RelayCosts(y, PeerJoined);
    case Announce => RelayCosts(y, HelloFrom(x.hello));
    case Hear => RelayCosts(y, HelloFrom(x.hello));
    case Stream =>
      if x.phase.Streaming? && x.phase.sent < |x.schedule| {
        RelayCosts(y, Scheduled(x.schedule[x.phase.sent]));
      }
    case Collect => RelayCosts(y, DigestFrom);
    case Leave => RelayCosts(y, PeerLeft);
  }

  function SessionLeft(s: Session): nat {
    StepsLeft(s.infiltrator) + StepsLeft(s.hacker)
  }

  /** How many steps of a run changed anything. */
  function EffectiveSteps(s: Session, steps: seq<(Role, Step)>): nat {
    if steps == [] then 0
    else
      var front, last := steps[..|steps| - 1], steps[|steps| - 1];
      var before := Play(s, front);
      EffectiveSteps(s, front) + if Next(before, last.0, last.1) != before then 1 else 0
  }

  lemma NextIsProgress(s: Session, r: Role, step: Step)
    ensures SessionLeft(Next(s, r, step)) + (if Next(s, r, step) != s then 1 else 0) <= SessionLeft(s)
  {
    hide Do, StepsLeft;
    if r == Infiltrator {
      EveryStepIsProgress(s.infiltrator, s.hacker, step);
    } else {
      EveryStepIsProgress(s.hacker, s.infiltrator, step);
    }
  }

  lemma {:induction false} StepsRunOut(s: Session, steps: seq<(Role, Step)>)
    ensures EffectiveSteps(s, steps) + SessionLeft(Play(s, steps)) <= SessionLeft(s)
  {
    hide Next, SessionLeft;
    if steps != [] {
      var front, last := steps[..|steps| - 1], steps[|steps| - 1];
      StepsRunOut(s, front);
      NextIsProgress(Play(s, front), last.0, last.1);
    }
  }

  /** A session ends after at most two effective steps for each scheduled command and twenty more, whatever
      the seats are configured for and in whatever order they step. */
  lemma SessionsAreBounded(s: Session, steps: seq<(Role, Step)>)
    requires s == Opening(s.infiltrator.hello, s.infiltrator.schedule, s.hacker.hello, s.hacker.schedule)
    ensures EffectiveSteps(s, steps) <= 2 * (|s.infiltrator.schedule| + |s.hacker.schedule|) + 20
  {
    StepsRunOut(s, steps);
  }

  /** Of the same side, or with different run headers, two seats never get past the barrier. */
  predicate NobodyStreams(x: Seat, y: Seat) {
    && (x.hello.role == y.hello.role || !x.hello.CompatibleWith(y.hello))
    && (x.phase.Outside? || x.phase.Joined? || x.phase.Waiting? || x.phase.Refused?)
    && (y.phase.Outside? || y.phase.Joined? || y.phase.Waiting? || y.phase.Refused?)
    && (forall i :: 0 <= i < |x.inbox| ==>
          !x.inbox[i].Scheduled? && (x.inbox[i].HelloFrom? ==> x.inbox[i].hello == y.hello))
    && (forall i :: 0 <= i < |y.inbox| ==>
          !y.inbox[i].Scheduled? && (y.inbox[i].HelloFrom? ==> y.inbox[i].hello == x.hello))
  }

  lemma MismatchNeverStreams(x: Seat, y: Seat, s: Step)
    requires NobodyStreams(x, y)
    ensures var (x', y') := Do(x, y, s); NobodyStreams(x', y')
  {
  }

  lemma NobodyStreamsIsSymmetric(x: Seat, y: Seat)
    requires NobodyStreams(x, y)
    ensures NobodyStreams(y, x)
  {
  }

  /** Two seats of the same side, or configured for different runs, never stream a command, in any run of the
      session. */
  lemma {:induction false} MismatchedSessionsNeverStream(s: Session, steps: seq<(Role, Step)>)
    requires s == Opening(s.infiltrator.hello, s.infiltrator.schedule, s.hacker.hello, s.hacker.schedule)
    requires s.infiltrator.hello.role == s.hacker.hello.role
             || !s.infiltrator.hello.CompatibleWith(s.hacker.hello)
    ensures var e := Play(s, steps); NobodyStreams(e.infiltrator, e.hacker)
  {
    if steps != [] {
      var n := |steps| - 1;
      hide NobodyStreams;
      MismatchedSessionsNeverStream(s, steps[..n]);
      var e := Play(s, steps[..n]);
      NobodyStreamsIsSymmetric(e.infiltrator, e.hacker);
      if steps[n].0 == Infiltrator {
        MismatchNeverStreams(e.infiltrator, e.hacker, steps[n].1);
      } else {
        MismatchNeverStreams(e.hacker, e.infiltrator, steps[n].1);
        var (y', x') := Do(e.hacker, e.infiltrator, steps[n].1);
        NobodyStreamsIsSymmetric(y', x');
      }
    }
  }

  /** A session in which neither seat can take another step is over for both, each with the other's whole
      schedule. */
  lemma StuckSessionsAreOver(s: Session, steps: seq<(Role, Step)>)
    requires FairOpening(s)
    requires var e := Play(s, steps); Stuck(e.infiltrator, e.hacker) && Stuck(e.hacker, e.infiltrator)
    ensures var e := Play(s, steps);
            && e.infiltrator.phase == Departed(s.hacker.schedule)
            && e.hacker.phase == Departed(s.infiltrator.schedule)
  {
    var e := Play(s, steps);
    hide Met, Stuck;
    EverySessionMeets(s, steps);
    CollectedIsTheSchedule(s, steps);
    StuckMeansLeft(e.infiltrator, e.hacker);
  }

  /// A mismatch is noticed

  /** What a seat `x` of a mismatched session has still to hear from `y`: the hello of a seat that has sent one,
      unless `y` has still to answer its join. */
  predicate StillToHear(x: Seat, y: Seat) {
    && (y.phase.Outside? || x.phase.Outside? ==> x.inbox == [])
    && (y.phase.Outside? || y.phase.Joined? ==>
          !x.phase.Refused? && forall i :: 0 <= i < |x.inbox| ==> !x.inbox[i].HelloFrom?)
    && (IsMember(x) && !x.phase.Refused? && y.phase.Waiting? ==> HelloFirst(x.inbox) || JoinFirst(y.inbox))
    && (IsMember(x) && !x.phase.Refused? && y.phase.Refused? ==> HelloFirst(x.inbox))
  }

  predicate Estranged(x: Seat, y: Seat) {
    NobodyStreams(x, y) && x.hello.role != y.hello.role && StillToHear(x, y) && StillToHear(y, x)
  }

  lemma {:induction false} NoneScheduled(q: seq<Broadcast>)
    requires forall i :: 0 <= i < |q| ==> !q[i].Scheduled?
    ensures CommandsIn(q) == []
  {
    if q != [] {
      NoneScheduled(q[1..]);
    }
  }

  lemma StaysEstranged(x: Seat, y: Seat, s: Step)
    requires Estranged(x, y)
    ensures var (x', y') := Do(x, y, s); Estranged(x', y')
  {
    hide CommandsIn, HelloFirst, JoinFirst, Hello.CompatibleWith, NobodyStreams;
    MismatchNeverStreams(x, y, s);
    HearsNoCommands(x, y);
    match s
    case Join => FirstsOfMore(y.inbox, PeerJoined);
    case Announce => FirstsOfMore(y.inbox, HelloFrom(x.hello));
    case Hear =>
      FirstsOfMore(y.inbox, HelloFrom(x.hello));
      if x.inbox != [] {
        FirstsOfTail(x.inbox);
      }
    case _ => OutOfTheBarrier(x, y);
  }

  lemma HearsNoCommands(x: Seat, y: Seat)
    requires NobodyStreams(x, y)
    ensures CommandsIn(x.inbox) == [] && CommandsIn(y.inbox) == []
    ensures x.inbox != [] && x.inbox[0].HelloFrom? ==> x.inbox[0].hello == y.hello
    ensures x.hello.role == y.hello.role || !x.hello.CompatibleWith(y.hello)
  {
    NoneScheduled(x.inbox);
    NoneScheduled(y.inbox);
  }

  lemma OutOfTheBarrier(x: Seat, y: Seat)
    requires NobodyStreams(x, y)
    ensures !x.phase.Streaming? && !x.phase.Collecting? && !x.phase.Done?
  {
  }

  lemma StuckEstranged(x: Seat, y: Seat)
    requires Estranged(x, y) && Stuck(x, y) && Stuck(y, x)
    ensures x.phase.Refused? && y.phase.Refused?
  {
    assert Do(x, y, Join) == (x, y) && Do(x, y, Announce) == (x, y);
    assert Do(y, x, Join) == (y, x) && Do(y, x, Announce) == (y, x);
    if x.phase.Waiting? {
      StuckHearing(x, y);
    }
    if y.phase.Waiting? {
      StuckHearing(y, x);
    }
  }

  lemma {:induction false} MismatchedSessionsStayEstranged(s: Session, steps: seq<(Role, Step)>)
    requires s == Opening(s.infiltrator.hello, s.infiltrator.schedule, s.hacker.hello, s.hacker.schedule)
    requires s.infiltrator.hello.role != s.hacker.hello.role
    requires !s.infiltrator.hello.CompatibleWith(s.hacker.hello)
    ensures var e := Play(s, steps); Estranged(e.infiltrator, e.hacker) && Estranged(e.hacker, e.infiltrator)
  {
    if steps != [] {
      hide Estranged;
      var n := |steps| - 1;
      MismatchedSessionsStayEstranged(s, steps[..n]);
      var e := Play(s, steps[..n]);
      if steps[n].0 == Infiltrator {
        StaysEstranged(e.infiltrator, e.hacker, steps[n].1);
      } else {
        StaysEstranged(e.hacker, e.infiltrator, steps[n].1);
      }
      EstrangedBothWays(Play(s, steps).infiltrator, Play(s, steps).hacker);
    }
  }

  lemma EstrangedBothWays(x: Seat, y: Seat)
    ensures Estranged(x, y) <==> Estranged(y, x)
  {
    hide Hello.CompatibleWith;
    CompatibilityIsMutual(x.hello, y.hello);
  }

  lemma CompatibilityIsMutual(a: Hello, b: Hello)
    ensures a.CompatibleWith(b) <==> b.CompatibleWith(a)
  {
  }

  /** Two seats of a session configured for different runs both find out: when neither can take another step,
      both have refused. */
  lemma MismatchedSessionsAreRefused(s: Session, steps: seq<(Role, Step)>)
    requires s == Opening(s.infiltrator.hello, s.infiltrator.schedule, s.hacker.hello, s.hacker.schedule)
    requires s.infiltrator.hello.role != s.hacker.hello.role
    requires !s.infiltrator.hello.CompatibleWith(s.hacker.hello)
    requires var e := Play(s, steps); Stuck(e.infiltrator, e.hacker) && Stuck(e.hacker, e.infiltrator)
    ensures var e := Play(s, steps); e.infiltrator.phase.Refused? && e.hacker.phase.Refused?
  {
    hide Stuck, Estranged;
    MismatchedSessionsStayEstranged(s, steps);
    StuckEstranged(Play(s, steps).infiltrator, Play(s, steps).hacker);
  }

  /** A departure read while commands are owed is a loss, with what was collected so far; once all are there it
      is none. */
  lemma DepartureIsALossIff(x: Seat, y: Seat)
    requires x.phase.Collecting? && x.inbox != [] && x.inbox[0].PeerLeft?
    ensures var x' := Do(x, y, Collect).0;
            && (x'.phase.Lost? <==> |x.phase.got| < x.phase.expected)
            && (x'.phase.Lost? ==> x'.phase.partial == x.phase.got)
            && (!x'.phase.Lost? ==> x'.phase == Done(x.phase.got))
  {
  }
}
