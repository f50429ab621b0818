/** The delay-lockstep state machine of one live seat, as values: what each method of the seat does. */
module Lockstep {
  import opened Wrappers
  import opened Commands
  import opened Script
  import opened Envelope
  import opened SeatSplit
  import opened Headless

  datatype NetError =
    | CommandAfterCommit(lateAt: nat)
    | CommandPastRun(pastAt: nat)
    | CommitPastRun(pastThrough: nat)
    | SameSeat
    | RestoreFailed
    | UnknownButton(name: string)

  datatype Outgoing = CommandOut(at: nat, cmd: Command) | CommitOut(through: nat)

  /** Commands by execution tick. A tick with no commands has no entry. */
  type TickMap = map<nat, seq<Command>>

  function At(m: TickMap, t: nat): seq<Command> {
    if t in m then m[t] else []
  }

  function PushAt(m: TickMap, t: nat, c: Command): TickMap {
    m[t := At(m, t) + [c]]
  }

  predicate NoEmptyLists(m: TickMap) {
    forall t :: t in m ==> m[t] != []
  }

  datatype Core = Core(
    role: Role,
    inputDelay: nat,
    maxSteps: nat,
    run: Run,
    held: Buttons,
    step: nat,
    nextSample: nat,
    peerNext: nat,
    own: TickMap,
    peer: TickMap,
    ended: bool)
  {
    predicate Finished() {
      ended || step >= maxSteps
    }

    predicate BlockedOnPeer() {
      !Finished() && step >= peerNext && step < nextSample
    }

    /** The watermarks cover the next tick. */
    predicate Ready() {
      !Finished() && step < peerNext && step < nextSample
    }
  }

  function NewCore(role: Role, inputDelay: nat, maxSteps: nat, start: Run): Core {
    Core(role, inputDelay, maxSteps, start, NO_BUTTONS, 0, 0, 0, map[], map[], false)
  }

  /// Pumping

  function Min(a: nat, b: nat): nat {
    if a <= b then a else b
  }

  /** One past the last tick a pump samples. */
  function SampleEnd(s: Core): (end: nat)
    ensures end >= s.nextSample
  {
    if s.Finished() || s.maxSteps == 0 then s.nextSample
    else
      var horizon := Min(s.step + s.inputDelay, s.maxSteps - 1);
      if s.nextSample <= horizon then horizon + 1 else s.nextSample
  }

  function CommandsOut(at: nat, cmds: seq<Command>): seq<Outgoing> {
    if cmds == [] then [] else CommandsOut(at, cmds[..|cmds| - 1]) + [CommandOut(at, cmds[|cmds| - 1])]
  }

  function TicksOut(feed: nat -> seq<Command>, lo: nat, hi: nat): seq<Outgoing>
    requires lo <= hi
  {
    if lo == hi then [] else TicksOut(feed, lo, hi - 1) + CommandsOut(hi - 1, feed(hi - 1))
  }

  function SampledInto(own: TickMap, feed: nat -> seq<Command>, lo: nat, hi: nat): TickMap
    requires lo <= hi
  {
    if lo == hi then own
    else
      var before := SampledInto(own, feed, lo, hi - 1);
      if feed(hi - 1) == [] then before else before[hi - 1 := feed(hi - 1)]
  }

  function Pumped(s: Core, feed: nat -> seq<Command>): Core {
    s.(own := SampledInto(s.own, feed, s.nextSample, SampleEnd(s)), nextSample := SampleEnd(s))
  }

  /** The newly sampled ticks' commands, then one cumulative commit. */
  function PumpOutput(s: Core, feed: nat -> seq<Command>): seq<Outgoing> {
    var end := SampleEnd(s);
    if end == s.nextSample then [] else TicksOut(feed, s.nextSample, end) + [CommitOut(end - 1)]
  }

  /// The peer's facts

  function OnPeerCommand(s: Core, at: nat, c: Command): Result<Core, NetError> {
    if at < s.peerNext then Failure(CommandAfterCommit(at))
    else if at >= s.maxSteps then Failure(CommandPastRun(at))
    else Success(s.(peer := PushAt(s.peer, at, c)))
  }

  function OnPeerCommit(s: Core, through: nat): Result<Core, NetError> {
    if through >= s.maxSteps then Failure(CommitPastRun(through))
    else Success(s.(peerNext := if s.peerNext > through + 1 then s.peerNext else through + 1))
  }

  function OnPeerLost(s: Core): Core {
    s.(peer := map t | t in s.peer && t < s.peerNext :: s.peer[t])
  }

  /// Advancing

  /** The infiltrator's commands for the next tick, then the hacker's, each in send order. */
  function NextCommands(s: Core): seq<Command> {
    match s.role
    case Infiltrator => At(s.own, s.step) + At(s.peer, s.step)
    case Hacker => At(s.peer, s.step) + At(s.own, s.step)
  }

  function ExecuteTick(g: Game, s: Core): Core {
    var p := TickCommands(g, Progress(s.run, s.held), NextCommands(s));
    s.(run := p.run, held := p.held, step := s.step + 1, own := s.own - {s.step}, peer := s.peer - {s.step})
  }

  /** One turn of the advance loop: an ended simulation is marked and never ticked. */
  function AdvanceOnce(g: Game, s: Core): Core {
    if !s.Ready() then s
    else if g.ended(s.run.sim) then s.(ended := true)
    else ExecuteTick(g, s)
  }

  function Advanced(g: Game, s: Core): Core
    decreases if s.ended then 0 else 1, s.maxSteps - s.step
  {
    if s.Ready() then Advanced(g, AdvanceOnce(g, s)) else s
  }

  /// Refusals

  /** A peer command is refused exactly below the peer's watermark or past the run; otherwise it joins the end
      of its tick's list and nothing else changes. */
  lemma CommandsAreRefusedIff(s: Core, at: nat, c: Command)
    ensures var r := OnPeerCommand(s, at, c);
            && (r.Failure? <==> at < s.peerNext || at >= s.maxSteps)
            && (at < s.peerNext ==> r == Failure(CommandAfterCommit(at)))
            && (s.peerNext <= at && at >= s.maxSteps ==> r == Failure(CommandPastRun(at)))
            && (r.Success? ==>
                  && r.value == s.(peer := r.value.peer)
                  && At(r.value.peer, at) == At(s.peer, at) + [c]
                  && forall t: nat :: t != at ==> At(r.value.peer, t) == At(s.peer, t))
  {
  }

  /** A commit is refused exactly past the run; otherwise the watermark covers it and never falls. */
  lemma CommitsAreRefusedIff(s: Core, through: nat)
    ensures var r := OnPeerCommit(s, through);
            && (r.Failure? <==> through >= s.maxSteps)
            && (r.Failure? ==> r.error == CommitPastRun(through))
            && (r.Success? ==>
                  && r.value == s.(peerNext := r.value.peerNext)
                  && r.value.peerNext > through && r.value.peerNext >= s.peerNext
                  && (r.value.peerNext == s.peerNext || r.value.peerNext == through + 1))
  {
  }

  /// Resync

  datatype PendingCommand = PendingCommand(at: nat, cmd: Command)

  datatype Resync = Resync(
    role: Role,
    step: nat,
    maxSteps: nat,
    held: seq<string>,
    snapshot: Snapshot,
    eventLog: seq<Event>,
    survivorNext: nat,
    survivorPending: seq<PendingCommand>,
    yourNext: nat,
    yourPending: seq<PendingCommand>)

  const BUTTON_TOKENS: seq<string> := ["left", "right", "crouch", "sprint", "interact"]

  function HeldTokensUpTo(held: Buttons, n: nat): seq<string>
    requires n <= 5
  {
    if n == 0 then []
    else HeldTokensUpTo(held, n - 1) + (if held.Has(ALL_BUTTONS[n - 1]) then [BUTTON_TOKENS[n - 1]] else [])
  }

  function HeldTokens(held: Buttons): seq<string> {
    HeldTokensUpTo(held, 5)
  }

  function HeldFrom(names: seq<string>): Result<Buttons, NetError> {
    if names == [] then Success(NO_BUTTONS)
    else
      match HeldFrom(names[..|names| - 1])
      case Failure(e) => Failure(e)
      case Success(held) =>
        match ButtonFrom(names[|names| - 1])
        case None => Failure(UnknownButton(names[|names| - 1]))
        case Some(b) => Success(held.Set(b, true))
  }

  lemma {:induction false} MinExists(keys: set<nat>)
    requires keys != {}
    ensures exists k :: k in keys && forall j :: j in keys ==> k <= j
    decreases |keys|
  {
    var k :| k in keys;
    var rest := keys - {k};
    if rest == {} {
      assert keys == {k};
    } else {
      MinExists(rest);
      var m :| m in rest && forall j :: j in rest ==> m <= j;
      LeastOfBoth(keys, k, m);
    }
  }

  lemma LeastOfBoth(keys: set<nat>, k: nat, m: nat)
    requires k in keys && m in keys && forall j :: j in keys - {k} ==> m <= j
    ensures var least := if k < m then k else m; least in keys && forall j :: j in keys ==> least <= j
  {
    forall j | j in keys
      ensures (if k < m then k else m) <= j
    {
      assert j == k || j in keys - {k};
    }
  }

  function MinKey(keys: set<nat>): (k: nat)
    requires keys != {}
    ensures k in keys && forall j :: j in keys ==> k <= j
  {
    MinExists(keys);
    var k :| k in keys && forall j :: j in keys ==> k <= j;
    k
  }

  function PendingOf(at: nat, cmds: seq<Command>): seq<PendingCommand> {
    seq(|cmds|, i requires 0 <= i < |cmds| => PendingCommand(at, cmds[i]))
  }

  /** A schedule's commands in ascending tick order, each tick's in send order. */
  function Flatten(m: TickMap): seq<PendingCommand>
    decreases |m|
  {
    if m.Keys == {} then []
    else
      var t := MinKey(m.Keys);
      PendingOf(t, m[t]) + Flatten(m - {t})
  }

  function GatherOnto(m: TickMap, pending: seq<PendingCommand>): TickMap
    decreases |pending|
  {
    if pending == [] then m else GatherOnto(PushAt(m, pending[0].at, pending[0].cmd), pending[1..])
  }

  function Gather(pending: seq<PendingCommand>): TickMap {
    GatherOnto(map[], pending)
  }

  function MakeResync(g: Game, s: Core): Resync {
    Resync(s.role, s.step, s.maxSteps, HeldTokens(s.held), g.snapshot(s.run.sim), s.run.log,
           s.nextSample, Flatten(s.own), s.peerNext, Flatten(s.peer))
  }

  function AdoptResync(g: Game, role: Role, inputDelay: nat, r: Resync): Result<Core, NetError> {
    if r.role == role then Failure(SameSeat)
    else
      match g.restore(r.snapshot)
      case None => Failure(RestoreFailed)
      case Some(sim) =>
        match HeldFrom(r.held)
        case Failure(e) => Failure(e)
        case Success(held) =>
          Success(Core(role, inputDelay, r.maxSteps, Run(sim, r.eventLog), held, r.step,
                       r.yourNext, r.survivorNext, Gather(r.yourPending), Gather(r.survivorPending), false))
  }

  lemma {:induction false} HeldFromRefuses(names: seq<string>)
    ensures HeldFrom(names).Failure? <==> exists i :: 0 <= i < |names| && ButtonFrom(names[i]).None?
    ensures HeldFrom(names).Failure? ==>
              exists i :: 0 <= i < |names| && ButtonFrom(names[i]).None?
                && HeldFrom(names).error == UnknownButton(names[i])
  {
    hide ButtonFrom;
    if names != [] {
      var front := names[..|names| - 1];
      HeldFromRefuses(front);
      if HeldFrom(front).Failure? {
        var i :| 0 <= i < |front| && ButtonFrom(front[i]).None? && HeldFrom(front).error == UnknownButton(front[i]);
        assert ButtonFrom(names[i]).None? && HeldFrom(names).error == UnknownButton(names[i]);
      } else if exists i :: 0 <= i < |names| && ButtonFrom(names[i]).None? {
        var i :| 0 <= i < |names| && ButtonFrom(names[i]).None?;
        assert i < |front| ==> ButtonFrom(front[i]).None?;
      }
    }
  }

  /** A hand-off is refused exactly when it comes from the same seat, its snapshot does not restore, or it
      holds a button nobody knows, and the first of these is the reason given. */
  lemma AdoptRefusesIff(g: Game, role: Role, inputDelay: nat, r: Resync)
    ensures var a := AdoptResync(g, role, inputDelay, r);
            var unknown := exists i :: 0 <= i < |r.held| && ButtonFrom(r.held[i]).None?;
            && (a.Failure? <==> r.role == role || g.restore(r.snapshot).None? || unknown)
            && (r.role == role ==> a == Failure(SameSeat))
            && (r.role != role && g.restore(r.snapshot).None? ==> a == Failure(RestoreFailed))
            && (r.role != role && g.restore(r.snapshot).Some? && unknown ==>
                  a.error.UnknownButton? && a.error.name in r.held && ButtonFrom(a.error.name).None?)
  {
    hide ButtonFrom, HeldFrom;
    HeldFromRefuses(r.held);
  }

  /// The hand-off is a mirror

  lemma {:induction false} TokensNameTheirButtons(i: nat)
    requires i < 5
    ensures ButtonFrom(BUTTON_TOKENS[i]) == Some(ALL_BUTTONS[i])
  {
    CanonicalNamesAreTokens(BUTTON_TOKENS[i]);
  }

  /** The held set with the first `n` buttons of `held`. */
  function FirstButtons(held: Buttons, n: nat): Buttons
    requires n <= 5
  {
    if n == 0 then NO_BUTTONS
    else if held.Has(ALL_BUTTONS[n - 1]) then FirstButtons(held, n - 1).Set(ALL_BUTTONS[n - 1], true)
    else FirstButtons(held, n - 1)
  }

  lemma {:induction false} TokensRoundTrip(held: Buttons, n: nat)
    requires n <= 5
    ensures HeldFrom(HeldTokensUpTo(held, n)) == Success(FirstButtons(held, n))
  {
    if n > 0 {
      TokensRoundTrip(held, n - 1);
      TokensNameTheirButtons(n - 1);
      var before := HeldTokensUpTo(held, n - 1);
      if held.Has(ALL_BUTTONS[n - 1]) {
        assert HeldTokensUpTo(held, n)[..|before|] == before;
      } else {
        assert HeldTokensUpTo(held, n) == before;
      }
    }
  }

  lemma {:induction false} FirstButtonsHeld(held: Buttons, n: nat)
    requires n <= 5
    ensures FirstButtons(held, n).Clean()
    ensures forall j :: 0 <= j < 5 ==>
              FirstButtons(held, n).Has(ALL_BUTTONS[j]) == (j < n && held.Has(ALL_BUTTONS[j]))
  {
    if n == 0 {
      NothingIsHeldByDefault();
    } else {
      FirstButtonsHeld(held, n - 1);
    }
  }

  /** Held tokens decode to the set they were made from, for any set of the five buttons. */
  lemma HeldSetsTravel(held: Buttons)
    requires held.Clean()
    ensures HeldFrom(HeldTokens(held)) == Success(held)
  {
    TokensRoundTrip(held, 5);
    FirstButtonsHeld(held, 5);
    var back := FirstButtons(held, 5);
    forall b: Button
      ensures back.Has(b) == held.Has(b)
    {
      var j := match b case Left => 0 case Right => 1 case Crouch => 2 case Sprint => 3 case Interact => 4;
      assert ALL_BUTTONS[j] == b;
    }
    HeldSetsAreExtensional(back, held);
  }

  /** The tokens on the wire are the buttons' own names, the first each one has, for exactly the held buttons. */
  lemma {:induction false} TokensAreNames(held: Buttons, n: nat, token: string)
    requires n <= 5
    ensures token in HeldTokensUpTo(held, n) <==>
            exists i :: 0 <= i < n && held.Has(ALL_BUTTONS[i]) && token == ButtonNames(ALL_BUTTONS[i])[0]
  {
    if n > 0 {
      hide Buttons.Has;
      TokensAreNames(held, n - 1, token);
      TokenIsTheName(n - 1);
    }
  }

  lemma TokenIsTheName(i: nat)
    requires i < 5
    ensures BUTTON_TOKENS[i] == ButtonNames(ALL_BUTTONS[i])[0]
  {
  }

  lemma PushThenAppend(m: TickMap, at: nat, cmds: seq<Command>)
    requires cmds != []
    ensures var m' := PushAt(m, at, cmds[0]);
            (if cmds[1..] == [] then m' else m'[at := At(m', at) + cmds[1..]]) == m[at := At(m, at) + cmds]
  {
    assert At(m, at) + [cmds[0]] + cmds[1..] == At(m, at) + cmds;
    if cmds[1..] == [] {
      assert cmds == [cmds[0]];
    }
  }

  lemma {:induction false} GatherOneTick(m: TickMap, at: nat, cmds: seq<Command>, rest: seq<PendingCommand>)
    ensures GatherOnto(m, PendingOf(at, cmds) + rest) ==
            GatherOnto(if cmds == [] then m else m[at := At(m, at) + cmds], rest)
    decreases |cmds|
  {
    hide At, PushAt;
    var pending := PendingOf(at, cmds);
    if cmds == [] {
      assert pending + rest == rest;
    } else {
      var m' := PushAt(m, at, cmds[0]);
      assert (pending + rest)[1..] == PendingOf(at, cmds[1..]) + rest;
      GatherOneTick(m', at, cmds[1..], rest);
      PushThenAppend(m, at, cmds);
    }
  }

  lemma {:induction false} GatherAll(done: TickMap, m: TickMap)
    requires NoEmptyLists(m) && done.Keys !! m.Keys
    ensures GatherOnto(done, Flatten(m)) == done + m
    decreases |m|
  {
    if m.Keys == {} {
      assert done + m == done;
    } else {
      var t := MinKey(m.Keys);
      var done' := done[t := m[t]];
      GatherOneTick(done, t, m[t], Flatten(m - {t}));
      GatherAll(done', m - {t});
      MoveOneTick(done, m, t);
    }
  }

  lemma MoveOneTick(done: TickMap, m: TickMap, t: nat)
    requires done.Keys !! m.Keys && t in m
    ensures At(done, t) + m[t] == m[t]
    ensures done[t := m[t]] + (m - {t}) == done + m
  {
  }

  /** Flattening a schedule and gathering it back is the identity, as no stored list is empty. */
  lemma SchedulesTravel(m: TickMap)
    requires NoEmptyLists(m)
    ensures Gather(Flatten(m)) == m
  {
    GatherAll(map[], m);
    assert map[] + m == m;
  }

  /** What a hand-off needs of a core, and every reachable core has: button bits only, no empty list stored. */
  predicate Transferable(s: Core) {
    s.held.Clean() && NoEmptyLists(s.own) && NoEmptyLists(s.peer)
  }

  /** The other seat's view of the same moment. */
  function Mirror(s: Core, inputDelay: nat): Core {
    Core(Other(s.role), inputDelay, s.maxSteps, s.run, s.held, s.step, s.peerNext, s.nextSample, s.peer, s.own, false)
  }

  /** Adopting a resync swaps the seats' schedules and watermarks and keeps everything else. */
  lemma ResyncIsMirror(g: Game, s: Core, inputDelay: nat)
    requires Faithful(g) && Transferable(s)
    ensures AdoptResync(g, Other(s.role), inputDelay, MakeResync(g, s)) == Success(Mirror(s, inputDelay))
    ensures Transferable(Mirror(s, inputDelay))
  {
    HeldSetsTravel(s.held);
    SchedulesTravel(s.own);
    SchedulesTravel(s.peer);
  }

  /** A resync handed on and handed back restores the surviving core. */
  lemma ResyncTwiceIsIdentity(g: Game, s: Core, inputDelay: nat)
    requires Faithful(g) && Transferable(s) && !s.ended
    ensures AdoptResync(g, s.role, s.inputDelay, MakeResync(g, Mirror(s, inputDelay))) == Success(s)
  {
    ResyncIsMirror(g, s, inputDelay);
    ResyncIsMirror(g, Mirror(s, inputDelay), s.inputDelay);
  }
}
