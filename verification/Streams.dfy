/** One direction of the wire: what a receiver's buffer becomes as it works through its queue. */
module Streams {
  import opened Commands
  import opened Envelope
  import opened Lockstep

  datatype Msg =
    | Cmd(at: nat, cmd: Command)
    | Commit(through: nat)
    | PeerLeft
    | RejoinHello
    | ResyncMsg(resync: Resync)

  /** Commands sampled so far, by execution tick. */
  type History = seq<seq<Command>>

  /** The receiving half of a seat: its peer buffer and its peer's watermark. */
  datatype View = View(peer: TickMap, watermark: nat)

  function Max(a: nat, b: nat): nat {
    if a >= b then a else b
  }

  /** Every committed tick from `lo` on holds exactly what its sender sampled for it. */
  predicate Exact(v: View, h: History, lo: nat) {
    && v.watermark <= |h|
    && forall t :: lo <= t < v.watermark ==> At(v.peer, t) == h[t]
  }

  ghost predicate NothingUncommitted(v: View) {
    forall t :: t >= v.watermark ==> At(v.peer, t) == []
  }

  /** What a lost peer leaves: its uncommitted commands never happened. */
  function Pruned(v: View): View {
    View(map t | t in v.peer && t < v.watermark :: v.peer[t], v.watermark)
  }

  /** How a running seat takes one message. A seat that is holding for a lost peer drops everything but a
      hello; a departure notice makes it hold, a hello makes it listen again, and a stray resync is ignored. */
  function Heard(v: View, hold: bool, m: Msg): (View, bool) {
    match m
    case Cmd(at, c) => if hold then (v, hold) else (View(PushAt(v.peer, at, c), v.watermark), hold)
    case Commit(through) => if hold then (v, hold) else (View(v.peer, Max(v.watermark, through + 1)), hold)
    case PeerLeft => (Pruned(v), true)
    case RejoinHello => (Pruned(v), false)
    case ResyncMsg(_) => (v, hold)
  }

  /** The message does not break the protocol, and a commit is news and leaves an exact view. */
  predicate Fits(v: View, hold: bool, m: Msg, h: History, lo: nat, max: nat) {
    match m
    case Cmd(at, _) => hold || v.watermark <= at < max
    case Commit(through) => hold || (v.watermark <= through < max && Exact(View(v.peer, through + 1), h, lo))
    case _ => true
  }

  /** Working through `q` never breaks the protocol, and every commit in it leaves an exact view. A
      `whole` queue comes from a sender that is still there: whoever listens at its end knows the history. */
  ghost predicate Stream(v: View, hold: bool, q: seq<Msg>, h: History, lo: nat, max: nat, whole: bool)
    decreases |q|
  {
    if q == [] then whole && !hold ==> v.watermark == |h| && NothingUncommitted(v)
    else
      && Fits(v, hold, q[0], h, lo, max)
      && Stream(Heard(v, hold, q[0]).0, Heard(v, hold, q[0]).1, q[1..], h, lo, max, whole)
  }

  predicate IsData(m: Msg) {
    m.Cmd? || m.Commit?
  }

  predicate DataOnly(q: seq<Msg>) {
    forall i :: 0 <= i < |q| ==> IsData(q[i])
  }

  /// What the state of a queue's reader may change

  /** Two views a reader cannot tell apart from `lo` on; while holding, uncommitted commands do not matter. */
  ghost predicate Alike(v: View, v': View, hold: bool, lo: nat) {
    && v'.watermark == v.watermark
    && forall t: nat :: t >= lo && (hold ==> t < v.watermark) ==> At(v'.peer, t) == At(v.peer, t)
  }

  lemma PrunedAt(v: View, t: nat)
    ensures At(Pruned(v).peer, t) == if t < v.watermark then At(v.peer, t) else []
  {
  }

  lemma AlikeAfter(v: View, v': View, hold: bool, m: Msg, h: History, lo: nat, lo': nat, max: nat)
    requires Alike(v, v', hold, lo') && lo <= lo' <= v.watermark && Fits(v, hold, m, h, lo, max)
    ensures Fits(v', hold, m, h, lo', max)
    ensures Alike(Heard(v, hold, m).0, Heard(v', hold, m).0, Heard(v, hold, m).1, lo')
    ensures Heard(v, hold, m).1 == Heard(v', hold, m).1 && v.watermark <= Heard(v, hold, m).0.watermark
  {
    var w, w', hold' := Heard(v, hold, m).0, Heard(v', hold, m).0, Heard(v, hold, m).1;
    forall t: nat | t >= lo' && (hold' ==> t < w.watermark)
      ensures At(w'.peer, t) == At(w.peer, t)
    {
      PrunedAt(v, t);
      PrunedAt(v', t);
      assert t < v.watermark || !hold ==> At(v'.peer, t) == At(v.peer, t);
    }
  }

  /** The receiver may execute and drop ticks below its watermark without disturbing the rest. */
  lemma {:induction false} StreamFrame(v: View, v': View, hold: bool, q: seq<Msg>, h: History, lo: nat, lo': nat,
                                       max: nat, whole: bool)
    requires Stream(v, hold, q, h, lo, max, whole)
    requires Alike(v, v', hold, lo') && lo <= lo' <= v.watermark
    ensures Stream(v', hold, q, h, lo', max, whole)
    decreases |q|
  {
    if q != [] {
      AlikeAfter(v, v', hold, q[0], h, lo, lo', max);
      StreamFrame(Heard(v, hold, q[0]).0, Heard(v', hold, q[0]).0, Heard(v, hold, q[0]).1,
                  q[1..], h, lo, lo', max, whole);
    }
  }

  /// Cutting and extending a queue

  /** Any suffix of a stream may be lost, and a notice or a hello may follow. */
  lemma {:induction false} StreamCut(v: View, hold: bool, q: seq<Msg>, k: nat, tail: seq<Msg>, h: History, lo: nat,
                                     max: nat, whole: bool)
    requires Stream(v, hold, q, h, lo, max, whole) && k <= |q|
    requires tail == [] || tail == [PeerLeft] || tail == [RejoinHello]
    ensures Stream(v, hold, q[..k] + tail, h, lo, max, false)
    decreases |q|
  {
    if k == 0 {
      assert q[..k] + tail == tail;
    } else {
      assert (q[..k] + tail)[0] == q[0] && (q[..k] + tail)[1..] == q[1..][..k - 1] + tail;
      StreamCut(Heard(v, hold, q[0]).0, Heard(v, hold, q[0]).1, q[1..], k - 1, tail, h, lo, max, whole);
    }
  }

  /** A stray resync at the end of a queue changes nothing. */
  lemma {:induction false} StreamStray(v: View, hold: bool, q: seq<Msg>, r: Msg, h: History, lo: nat, max: nat,
                                       whole: bool)
    requires Stream(v, hold, q, h, lo, max, whole) && r.ResyncMsg?
    ensures Stream(v, hold, q + [r], h, lo, max, whole)
    decreases |q|
  {
    if q == [] {
      assert q + [r] == [r] && [r][1..] == [];
    } else {
      assert (q + [r])[0] == q[0] && (q + [r])[1..] == q[1..] + [r];
      StreamStray(Heard(v, hold, q[0]).0, Heard(v, hold, q[0]).1, q[1..], r, h, lo, max, whole);
    }
  }

  /// Shapes of queues

  predicate HasHello(q: seq<Msg>) {
    exists i :: 0 <= i < |q| && q[i].RejoinHello?
  }

  predicate CommitFree(q: seq<Msg>) {
    forall i :: 0 <= i < |q| ==> !q[i].Commit?
  }

  /** A commit queued behind a hello that is still to be answered. */
  predicate CommitBehindHello(q: seq<Msg>) {
    !forall i, j :: 0 <= i < j < |q| && q[i].RejoinHello? ==> !q[j].Commit?
  }

  /** No commit comes before the last hello. */
  predicate CommitsLast(q: seq<Msg>) {
    forall i, j :: 0 <= i < j < |q| && q[j].RejoinHello? ==> !q[i].Commit?
  }

  predicate NoticesAnswered(q: seq<Msg>) {
    forall i :: 0 <= i < |q| && q[i].PeerLeft? ==> HasHello(q[i..])
  }

  /** A sender that has gone is next heard of by another notice or by its next process' hello. */
  predicate NoticesInOrder(q: seq<Msg>) {
    forall i :: 0 <= i < |q| - 1 && q[i].PeerLeft? ==> q[i + 1].PeerLeft? || q[i + 1].RejoinHello?
  }

  lemma HelloInTail(q: seq<Msg>)
    requires q != []
    ensures HasHello(q) <==> q[0].RejoinHello? || HasHello(q[1..])
  {
    if HasHello(q[1..]) {
      var i :| 0 <= i < |q[1..]| && q[1..][i].RejoinHello?;
      assert q[i + 1].RejoinHello?;
    }
    if HasHello(q) && !q[0].RejoinHello? {
      var i :| 0 <= i < |q| && q[i].RejoinHello?;
      assert q[1..][i - 1].RejoinHello?;
    }
  }

  lemma ShapesOfTail(q: seq<Msg>)
    requires q != []
    ensures CommitFree(q) ==> CommitFree(q[1..])
    ensures CommitsLast(q) ==> CommitsLast(q[1..]) && (q[0].Commit? ==> !HasHello(q[1..]))
    ensures !CommitBehindHello(q) ==> !CommitBehindHello(q[1..]) && (q[0].RejoinHello? ==> CommitFree(q[1..]))
    ensures NoticesInOrder(q) ==> NoticesInOrder(q[1..])
  {
    var rest := q[1..];
    assert forall i :: 0 <= i < |rest| ==> rest[i] == q[i + 1];
  }

  lemma NoticesOfTail(q: seq<Msg>)
    requires q != [] && NoticesAnswered(q)
    ensures NoticesAnswered(q[1..]) && (q[0].PeerLeft? ==> HasHello(q[1..]))
  {
    var rest := q[1..];
    forall i | 0 <= i < |rest| && rest[i].PeerLeft?
      ensures HasHello(rest[i..])
    {
      assert q[i + 1].PeerLeft? && q[i + 1..] == rest[i..];
    }
    HelloInTail(q);
    assert q[0..] == q;
  }

  lemma CommitFreeMeansNone(q: seq<Msg>)
    requires CommitFree(q)
    ensures !CommitBehindHello(q) && CommitsLast(q)
  {
  }

  /// Holding

  /** A reader that holds drops everything up to a hello. */
  lemma {:induction false} HoldersDrop(v: View, q: seq<Msg>, h: History, lo: nat, max: nat, whole: bool)
    requires !HasHello(q)
    ensures Stream(v, true, q, h, lo, max, whole)
    decreases |q|
  {
    if q != [] {
      HelloInTail(q);
      HoldersDrop(Heard(v, true, q[0]).0, q[1..], h, lo, max, whole);
    }
  }

  /** A queue whose commits come last: stopping to listen loses nothing but commands a hello prunes anyway. */
  lemma {:induction false} HoldBeforeCommits(v: View, v0: View, q: seq<Msg>, h: History, lo: nat, max: nat, whole: bool)
    requires Stream(v, false, q, h, lo, max, whole) && CommitsLast(q)
    requires Alike(v, v0, true, lo) && lo <= v.watermark
    ensures Stream(v0, true, q, h, lo, max, whole)
    decreases |q|
  {
    if q != [] {
      var (w, hold) := Heard(v, false, q[0]);
      ShapesOfTail(q);
      match q[0]
      case Cmd(_, _) => HoldBeforeCommits(w, v0, q[1..], h, lo, max, whole);
      case Commit(_) => HoldersDrop(v0, q[1..], h, lo, max, whole);
      case ResyncMsg(_) => HoldBeforeCommits(w, v0, q[1..], h, lo, max, whole);
      case _ =>
        AlikePruned(v, v0, lo);
        StreamFrame(w, Pruned(v0), hold, q[1..], h, lo, lo, max, whole);
    }
  }

  lemma AlikePruned(v: View, v0: View, lo: nat)
    requires Alike(v, v0, true, lo)
    ensures Alike(Pruned(v), Pruned(v0), false, lo) && Alike(Pruned(v), Pruned(v0), true, lo)
  {
    forall t: nat | t >= lo
      ensures At(Pruned(v0).peer, t) == At(Pruned(v).peer, t)
    {
      PrunedAt(v, t);
      PrunedAt(v0, t);
    }
  }

  /** Without commits a queue fits any reader whose watermark is no higher. */
  lemma {:induction false} CommitFreeFits(v: View, v0: View, hold: bool, hold0: bool, q: seq<Msg>, h: History,
                                          lo: nat, max: nat)
    requires Stream(v, hold, q, h, lo, max, false) && CommitFree(q) && v0.watermark <= v.watermark
    requires hold ==> hold0
    ensures Stream(v0, hold0, q, h, lo, max, false)
    decreases |q|
  {
    if q != [] {
      ShapesOfTail(q);
      CommitFreeFits(Heard(v, hold, q[0]).0, Heard(v0, hold0, q[0]).0, Heard(v, hold, q[0]).1, Heard(v0, hold0, q[0]).1,
                     q[1..], h, lo, max);
    }
  }

  /** A queue of a sender that is gone, without a commit behind its hellos: stopping to listen may miss the
      commits before the first hello, which a later hand-off will not claim either. */
  lemma {:induction false} HoldBeforeHello(v: View, v0: View, hold: bool, q: seq<Msg>, h: History, lo: nat, max: nat)
    requires Stream(v, hold, q, h, lo, max, false) && !CommitBehindHello(q) && v0.watermark <= v.watermark
    ensures Stream(v0, true, q, h, lo, max, false)
    decreases |q|
  {
    if q != [] {
      ShapesOfTail(q);
      var w, w0 := Heard(v, hold, q[0]).0, Heard(v0, true, q[0]).0;
      if q[0].RejoinHello? {
        CommitFreeFits(w, w0, false, false, q[1..], h, lo, max);
      } else {
        HoldBeforeHello(w, w0, Heard(v, hold, q[0]).1, q[1..], h, lo, max);
      }
    }
  }

  /** What a commit-free queue that ends in a hello leaves: the reader knows exactly what was committed. */
  lemma {:induction false} CommitFreeWhole(v: View, hold: bool, q: seq<Msg>, h: History, lo: nat, max: nat)
    requires Stream(v, hold, q, h, lo, max, false) && CommitFree(q) && v.watermark <= |h|
    requires if q == [] then !hold && NothingUncommitted(v) else q[|q| - 1].RejoinHello?
    ensures Stream(v, hold, q, h[..v.watermark], lo, max, true)
    decreases |q|
  {
    if q != [] {
      ShapesOfTail(q);
      CommitFreeWhole(Heard(v, hold, q[0]).0, Heard(v, hold, q[0]).1, q[1..], h, lo, max);
    }
  }

  /// What a pump adds

  function ToMsg(o: Outgoing): Msg {
    match o
    case CommandOut(at, cmd) => Cmd(at, cmd)
    case CommitOut(through) => Commit(through)
  }

  function Msgs(out: seq<Outgoing>): seq<Msg> {
    seq(|out|, i requires 0 <= i < |out| => ToMsg(out[i]))
  }

  function Fed(feed: nat -> seq<Command>, lo: nat, hi: nat): (h: History)
    requires lo <= hi
    ensures |h| == hi - lo
  {
    if lo == hi then [] else Fed(feed, lo, hi - 1) + [feed(hi - 1)]
  }

  lemma {:induction false} FedAt(feed: nat -> seq<Command>, lo: nat, hi: nat, t: nat)
    requires lo <= t < hi
    ensures Fed(feed, lo, hi)[t - lo] == feed(t)
  {
    if t < hi - 1 {
      FedAt(feed, lo, hi - 1, t);
    }
  }

  predicate CommandsBetween(out: seq<Outgoing>, lo: nat, hi: nat) {
    forall i :: 0 <= i < |out| ==> out[i].CommandOut? && lo <= out[i].at < hi
  }

  function Absorbed(m: TickMap, out: seq<Outgoing>): TickMap {
    if out == [] then m
    else
      var last := out[|out| - 1];
      var before := Absorbed(m, out[..|out| - 1]);
      if last.CommandOut? then PushAt(before, last.at, last.cmd) else before
  }

  lemma {:induction false} AbsorbedConcat(m: TickMap, a: seq<Outgoing>, b: seq<Outgoing>)
    ensures Absorbed(m, a + b) == Absorbed(Absorbed(m, a), b)
  {
    if b == [] {
      assert a + b == a;
    } else {
      var front := b[..|b| - 1];
      assert (a + b)[..|a + b| - 1] == a + front && (a + b)[|a + b| - 1] == b[|b| - 1];
      AbsorbedConcat(m, a, front);
    }
  }

  lemma AbsorbedFirst(m: TickMap, out: seq<Outgoing>)
    requires out != [] && out[0].CommandOut?
    ensures Absorbed(m, out) == Absorbed(PushAt(m, out[0].at, out[0].cmd), out[1..])
  {
    assert out == [out[0]] + out[1..];
    AbsorbedConcat(m, [out[0]], out[1..]);
    assert [out[0]][..0] == [];
  }

  /** A run of commands in front of a queue is simply pushed. */
  lemma {:induction false} StreamOfCommands(v: View, out: seq<Outgoing>, q: seq<Msg>, h: History, lo: nat, max: nat,
                                            whole: bool)
    requires CommandsBetween(out, v.watermark, max)
    requires Stream(View(Absorbed(v.peer, out), v.watermark), false, q, h, lo, max, whole)
    ensures Stream(v, false, Msgs(out) + q, h, lo, max, whole)
    decreases |out|
  {
    hide Absorbed, PushAt, Exact, NothingUncommitted;
    if out == [] {
      NothingAbsorbed(v.peer);
      assert Msgs(out) + q == q;
    } else {
      AbsorbedFirst(v.peer, out);
      StreamOfCommands(View(PushAt(v.peer, out[0].at, out[0].cmd), v.watermark), out[1..], q, h, lo, max, whole);
      assert (Msgs(out) + q)[0] == ToMsg(out[0]) && (Msgs(out) + q)[1..] == Msgs(out[1..]) + q;
    }
  }

  lemma NothingAbsorbed(m: TickMap)
    ensures Absorbed(m, []) == m
  {
  }

  lemma OneMoreAbsorbed(m: TickMap, out: seq<Outgoing>, at: nat, c: Command, t: nat)
    ensures At(Absorbed(m, out + [CommandOut(at, c)]), t) ==
            if t == at then At(Absorbed(m, out), t) + [c] else At(Absorbed(m, out), t)
  {
    assert (out + [CommandOut(at, c)])[..|out|] == out;
  }

  lemma {:induction false} OneTickOut(m: TickMap, at: nat, cmds: seq<Command>, t: nat)
    ensures At(Absorbed(m, CommandsOut(at, cmds)), t) == if t == at then At(m, t) + cmds else At(m, t)
  {
    hide At, Absorbed;
    if cmds != [] {
      var front, last := cmds[..|cmds| - 1], cmds[|cmds| - 1];
      OneTickOut(m, at, front, t);
      OneMoreAbsorbed(m, CommandsOut(at, front), at, last, t);
      assert cmds == front + [last];
      assert At(m, t) + front + [last] == At(m, t) + cmds;
    } else {
      assert At(m, t) + cmds == At(m, t);
      NothingAbsorbed(m);
    }
  }

  lemma {:induction false} OneTickBetween(at: nat, cmds: seq<Command>)
    ensures CommandsBetween(CommandsOut(at, cmds), at, at + 1)
  {
    if cmds != [] {
      OneTickBetween(at, cmds[..|cmds| - 1]);
    }
  }

  lemma {:induction false} TicksBetween(feed: nat -> seq<Command>, lo: nat, hi: nat)
    requires lo <= hi
    ensures CommandsBetween(TicksOut(feed, lo, hi), lo, hi)
  {
    if lo < hi {
      TicksBetween(feed, lo, hi - 1);
      OneTickBetween(hi - 1, feed(hi - 1));
    }
  }

  lemma {:induction false} TicksOutAbsorbed(m: TickMap, feed: nat -> seq<Command>, lo: nat, hi: nat, t: nat)
    requires lo <= hi
    ensures At(Absorbed(m, TicksOut(feed, lo, hi)), t) == if lo <= t < hi then At(m, t) + feed(t) else At(m, t)
  {
    hide CommandsOut, At;
    if lo < hi {
      var before := TicksOut(feed, lo, hi - 1);
      TicksOutAbsorbed(m, feed, lo, hi - 1, t);
      OneTickOut(Absorbed(m, before), hi - 1, feed(hi - 1), t);
      AbsorbedConcat(m, before, CommandsOut(hi - 1, feed(hi - 1)));
    }
  }

  /** Newly sampled ticks followed by their commit, read by a receiver that had everything before them. */
  lemma EmittedStream(v: View, feed: nat -> seq<Command>, h: History, lo: nat, end: nat, max: nat)
    requires v.watermark == |h| && NothingUncommitted(v) && Exact(v, h, lo)
    requires |h| < end <= max
    ensures Stream(v, false, Msgs(TicksOut(feed, |h|, end)) + [Commit(end - 1)], h + Fed(feed, |h|, end), lo, max, true)
  {
    hide Absorbed, TicksOut, Fed, Stream;
    var out := TicksOut(feed, |h|, end);
    var h' := h + Fed(feed, |h|, end);
    var filled := View(Absorbed(v.peer, out), v.watermark);
    FilledIn(v, feed, h, end);
    LastCommit(filled, h', lo, end, max);
    TicksBetween(feed, |h|, end);
    StreamOfCommands(v, out, [Commit(end - 1)], h', lo, max, true);
  }

  lemma FilledIn(v: View, feed: nat -> seq<Command>, h: History, end: nat)
    requires v.watermark == |h| && NothingUncommitted(v) && |h| < end
    ensures forall t: nat ::
              At(Absorbed(v.peer, TicksOut(feed, |h|, end)), t) ==
              if |h| <= t < end then (h + Fed(feed, |h|, end))[t] else At(v.peer, t)
  {
    hide Absorbed, TicksOut, Fed;
    forall t: nat
      ensures At(Absorbed(v.peer, TicksOut(feed, |h|, end)), t) ==
              if |h| <= t < end then (h + Fed(feed, |h|, end))[t] else At(v.peer, t)
    {
      TicksOutAbsorbed(v.peer, feed, |h|, end, t);
      if |h| <= t < end {
        FedAt(feed, |h|, end, t);
        assert At(v.peer, t) + feed(t) == feed(t);
      }
    }
  }

  lemma LastCommit(v: View, h: History, lo: nat, end: nat, max: nat)
    requires v.watermark < end <= max && end == |h|
    requires forall t: nat :: t >= end ==> At(v.peer, t) == []
    requires forall t: nat :: lo <= t < end ==> At(v.peer, t) == h[t]
    ensures Stream(v, false, [Commit(end - 1)], h, lo, max, true)
  {
    assert [Commit(end - 1)][1..] == [];
    assert Stream(View(v.peer, end), false, [], h, lo, max, true);
  }

  /** A pump extends a whole stream of the old history to a whole stream of the new one. */
  lemma {:induction false} PumpExtendsStream(v: View, hold: bool, q: seq<Msg>, feed: nat -> seq<Command>, h: History,
                                             lo: nat, end: nat, max: nat)
    requires Stream(v, hold, q, h, lo, max, true) && Exact(v, h, lo) && lo <= v.watermark
    requires |h| < end <= max
    ensures Stream(v, hold, q + (Msgs(TicksOut(feed, |h|, end)) + [Commit(end - 1)]),
                   h + Fed(feed, |h|, end), lo, max, true)
    decreases |q|
  {
    var added := Msgs(TicksOut(feed, |h|, end)) + [Commit(end - 1)];
    if q == [] {
      assert q + added == added;
      if hold {
        AddedHasNoHello(feed, |h|, end);
        HoldersDrop(v, added, h + Fed(feed, |h|, end), lo, max, true);
      } else {
        EmittedStream(v, feed, h, lo, end, max);
      }
    } else {
      assert (q + added)[0] == q[0] && (q + added)[1..] == q[1..] + added;
      StaysExact(v, hold, q[0], h, lo, max);
      FitsLonger(v, hold, q[0], h, h + Fed(feed, |h|, end), lo, max);
      PumpExtendsStream(Heard(v, hold, q[0]).0, Heard(v, hold, q[0]).1, q[1..], feed, h, lo, end, max);
    }
  }

  lemma AddedHasNoHello(feed: nat -> seq<Command>, lo: nat, end: nat)
    requires lo < end
    ensures DataOnly(Msgs(TicksOut(feed, lo, end)) + [Commit(end - 1)])
    ensures !HasHello(Msgs(TicksOut(feed, lo, end)) + [Commit(end - 1)])
  {
  }

  /** Reading a message that fits keeps a view exact. */
  lemma StaysExact(v: View, hold: bool, m: Msg, h: History, lo: nat, max: nat)
    requires Exact(v, h, lo) && lo <= v.watermark && Fits(v, hold, m, h, lo, max)
    ensures Exact(Heard(v, hold, m).0, h, lo) && lo <= Heard(v, hold, m).0.watermark
  {
    var w := Heard(v, hold, m).0;
    forall t | lo <= t < w.watermark
      ensures At(w.peer, t) == h[t]
    {
      PrunedAt(v, t);
      if m.Commit? && !hold {
        assert At(View(v.peer, m.through + 1).peer, t) == h[t];
      } else {
        assert At(v.peer, t) == h[t];
      }
    }
  }

  lemma FitsLonger(v: View, hold: bool, m: Msg, h: History, h': History, lo: nat, max: nat)
    requires Fits(v, hold, m, h, lo, max) && h <= h'
    ensures Fits(v, hold, m, h', lo, max)
  {
  }
}
