/** The live seat as the program has it: an object whose methods update its fields in place. Each method
    is tied to the value-level machine of module Lockstep. */
module LiveSeat {
  import opened Wrappers
  import opened Commands
  import opened Script
  import opened Envelope
  import opened SeatSplit
  import opened Headless
  import opened Lockstep

  function ByTick(schedule: seq<ScheduledCommand>): TickMap {
    if schedule == [] then map[]
    else
      var last := schedule[|schedule| - 1];
      PushAt(ByTick(schedule[..|schedule| - 1]), last.at, last.cmd)
  }

  lemma {:induction false} ByTickHoldsTheSchedule(schedule: seq<ScheduledCommand>, t: nat)
    ensures At(ByTick(schedule), t) == CommandsAt(schedule, t)
  {
    if schedule != [] {
      ByTickHoldsTheSchedule(schedule[..|schedule| - 1], t);
    }
  }

  /** One seat's share of a script, served by execution tick. */
  class ScriptFeed {
    const script: ScriptFile
    const role: Role
    const byTick: TickMap

    ghost predicate Valid() {
      byTick == ByTick(Schedule(script, role))
    }

    constructor (script: ScriptFile, role: Role)
      ensures Valid() && this.script == script && this.role == role
    {
      hide OwnSchedule;
      var schedule := SeatSchedule(script, role);
      var m: TickMap := map[];
      for i := 0 to |schedule|
        invariant m == ByTick(schedule[..i])
      {
        assert schedule[..i + 1][..i] == schedule[..i];
        m := PushAt(m, schedule[i].at, schedule[i].cmd);
      }
      assert schedule[..|schedule|] == schedule;
      this.script, this.role, this.byTick := script, role, m;
    }

    /** The same answer for a tick whenever it is asked. */
    function CommandsFor(at: nat): (cmds: seq<Command>)
      requires Valid()
      ensures cmds == CommandsAt(Schedule(script, role), at)
    {
      ByTickHoldsTheSchedule(Schedule(script, role), at);
      At(byTick, at)
    }
  }

  class LockstepCore {
    const role: Role
    const inputDelay: nat
    const maxSteps: nat
    var run: Run
    var held: Buttons
    var step: nat
    var nextSample: nat
    var peerNext: nat
    var own: TickMap
    var peer: TickMap
    var ended: bool

    /** The object's state as a value. */
    function State(): Core
      reads this
    {
      Core(role, inputDelay, maxSteps, run, held, step, nextSample, peerNext, own, peer, ended)
    }

    constructor FromState(s: Core)
      ensures State() == s
    {
      role, inputDelay, maxSteps := s.role, s.inputDelay, s.maxSteps;
      run, held, step := s.run, s.held, s.step;
      nextSample, peerNext, own, peer, ended := s.nextSample, s.peerNext, s.own, s.peer, s.ended;
    }

    /** A fresh seat at tick 0, its startup events already in the log. */
    static method New(g: Game, role: Role, inputDelay: nat, script: ScriptFile)
      returns (r: Result<LockstepCore, string>)
      ensures g.build(script).Failure? ==> r.Failure? && r.error == g.build(script).error
      ensures g.build(script).Success? ==>
                r.Success? && fresh(r.value)
                && r.value.State() == NewCore(role, inputDelay, script.maxTicks, g.build(script).value)
    {
      var built := g.build(script);
      if built.Failure? {
        return Failure(built.error);
      }
      var core := new LockstepCore.FromState(NewCore(role, inputDelay, script.maxTicks, built.value));
      r := Success(core);
    }

    predicate Finished()
      reads this
    {
      ended || step >= maxSteps
    }

    /** Sample up to the delay horizon; return what goes on the wire, in order. */
    method PumpOutgoing(feed: nat -> seq<Command>) returns (out: seq<Outgoing>)
      modifies this`own, this`nextSample
      ensures State() == Pumped(old(State()), feed)
      ensures out == PumpOutput(old(State()), feed)
    {
      out := [];
      if Finished() || maxSteps == 0 {
        return;
      }
      var horizon := Min(step + inputDelay, maxSteps - 1);
      ghost var start, before := nextSample, own;
      var sampled: Option<nat> := None;
      while nextSample <= horizon
        invariant start <= nextSample
        invariant nextSample <= horizon + 1 || nextSample == start
        invariant out == TicksOut(feed, start, nextSample)
        invariant own == SampledInto(before, feed, start, nextSample)
        invariant sampled == if nextSample == start then None else Some((nextSample - 1) as nat)
      {
        var at := nextSample;
        var cmds := feed(at);
        out := PushCommands(out, at, cmds);
        if cmds != [] {
          own := own[at := cmds];
        }
        sampled := Some(at);
        nextSample := at + 1;
      }
      if sampled.Some? {
        out := out + [CommitOut(sampled.value)];
      }
    }

    static method PushCommands(out: seq<Outgoing>, at: nat, cmds: seq<Command>) returns (out': seq<Outgoing>)
      ensures out' == out + CommandsOut(at, cmds)
    {
      out' := out;
      for i := 0 to |cmds|
        invariant out' == out + CommandsOut(at, cmds[..i])
      {
        assert cmds[..i + 1][..i] == cmds[..i];
        out' := out' + [CommandOut(at, cmds[i])];
      }
      assert cmds[..|cmds|] == cmds;
    }

    /** A relayed peer command; refused, with the state unchanged, if the peer already committed its tick
        or it lies past the run. */
    method OnPeerCommand(at: nat, cmd: Command) returns (r: Result<(), NetError>)
      modifies this`peer
      ensures match Lockstep.OnPeerCommand(old(State()), at, cmd)
              case Success(s) => r.Success? && State() == s
              case Failure(e) => r == Failure(e) && State() == old(State())
    {
      if at < peerNext {
        return Failure(CommandAfterCommit(at));
      }
      if at >= maxSteps {
        return Failure(CommandPastRun(at));
      }
      peer := PushAt(peer, at, cmd);
      r := Success(());
    }

    method OnPeerCommit(through: nat) returns (r: Result<(), NetError>)
      modifies this`peerNext
      ensures match Lockstep.OnPeerCommit(old(State()), through)
              case Success(s) => r.Success? && State() == s
              case Failure(e) => r == Failure(e) && State() == old(State())
    {
      if through >= maxSteps {
        return Failure(CommitPastRun(through));
      }
      peerNext := if peerNext > through + 1 then peerNext else through + 1;
      r := Success(());
    }

    /** Without a commit the peer's commands never happened. */
    method OnPeerLost()
      modifies this`peer
      ensures State() == Lockstep.OnPeerLost(old(State()))
    {
      peer := map t | t in peer && t < peerNext :: peer[t];
    }

    /** Execute every ready tick. */
    method Advance(g: Game)
      modifies this
      ensures State() == Advanced(g, old(State()))
    {
      hide EdgesAnswer, RestInOrder, EdgesMatch, LastSet, Buttons.Has, InputOf, HeldAfter, At;
      while !Finished() && step < peerNext && step < nextSample
        invariant Advanced(g, State()) == Advanced(g, old(State()))
        decreases maxSteps - step
      {
        if g.ended(run.sim) {
          ended := true;
          break;
        }
        ghost var before := State();
        var first, second := own, peer;
        if role == Hacker {
          first, second := peer, own;
        }
        var cmds := At(first, step) + At(second, step);
        assert cmds == NextCommands(before);
        var input, held' := Fold(cmds, held);
        run, held := TickRun(g, run, input), held';
        own, peer := own - {step}, peer - {step};
        step := step + 1;
        assert State() == ExecuteTick(g, before);
      }
    }

    method MakeResync(g: Game) returns (r: Resync)
      ensures r == Lockstep.MakeResync(g, State())
    {
      var ownPending := FlattenMap(own);
      var peerPending := FlattenMap(peer);
      var tokens := TokensOf(held);
      r := Resync(role, step, maxSteps, tokens, g.snapshot(run.sim), run.log,
                  nextSample, ownPending, peerNext, peerPending);
    }

    static method FlattenMap(m: TickMap) returns (pending: seq<PendingCommand>)
      ensures pending == Flatten(m)
    {
      pending := [];
      var rest := m;
      while rest.Keys != {}
        invariant pending + Flatten(rest) == Flatten(m)
        decreases |rest|
      {
        var t := MinKey(rest.Keys);
        pending, rest := pending + PendingOf(t, rest[t]), rest - {t};
      }
    }

    static method TokensOf(held: Buttons) returns (tokens: seq<string>)
      ensures tokens == HeldTokens(held)
    {
      tokens := [];
      for i := 0 to 5
        invariant tokens == HeldTokensUpTo(held, i)
      {
        if held.Has(ALL_BUTTONS[i]) {
          tokens := tokens + [BUTTON_TOKENS[i]];
        }
      }
    }

    static method GatherPending(pending: seq<PendingCommand>) returns (m: TickMap)
      ensures m == Gather(pending)
    {
      m := map[];
      var i := 0;
      assert pending[0..] == pending;
      while i < |pending|
        invariant i <= |pending|
        invariant GatherOnto(m, pending[i..]) == Gather(pending)
      {
        assert pending[i..][1..] == pending[i + 1..];
        m := PushAt(m, pending[i].at, pending[i].cmd);
        i := i + 1;
      }
    }

    static method HeldOf(names: seq<string>) returns (r: Result<Buttons, NetError>)
      ensures r == HeldFrom(names)
    {
      var held := NO_BUTTONS;
      for i := 0 to |names|
        invariant HeldFrom(names[..i]) == Success(held)
      {
        assert names[..i + 1][..i] == names[..i];
        var b := ButtonFrom(names[i]);
        if b.None? {
          FirstUnknownName(names, i + 1);
          return Failure(UnknownButton(names[i]));
        }
        held := held.Set(b.value, true);
      }
      assert names[..|names|] == names;
      r := Success(held);
    }

    /** A new core in the place the hand-off describes, or the reason why there is none. */
    static method Adopt(g: Game, role: Role, inputDelay: nat, resync: Resync)
      returns (r: Result<LockstepCore, NetError>)
      ensures match AdoptResync(g, role, inputDelay, resync)
              case Success(s) => r.Success? && fresh(r.value) && r.value.State() == s
              case Failure(e) => r.Failure? && r.error == e
    {
      if resync.role == role {
        return Failure(SameSeat);
      }
      var sim := g.restore(resync.snapshot);
      if sim.None? {
        return Failure(RestoreFailed);
      }
      var held := HeldOf(resync.held);
      if held.Failure? {
        return Failure(held.error);
      }
      var own := GatherPending(resync.yourPending);
      var peer := GatherPending(resync.survivorPending);
      var core := new LockstepCore.FromState(
        Core(role, inputDelay, resync.maxSteps, Run(sim.value, resync.eventLog), held.value, resync.step,
             resync.yourNext, resync.survivorNext, own, peer, false));
      r := Success(core);
    }
  }

  lemma {:induction false} FirstUnknownName(names: seq<string>, n: nat)
    requires n <= |names| && HeldFrom(names[..n]).Failure?
    ensures HeldFrom(names) == HeldFrom(names[..n])
  {
    if n == |names| {
      assert names[..n] == names;
    } else {
      var front := names[..|names| - 1];
      assert front[..n] == names[..n];
      FirstUnknownName(front, n);
    }
  }
}
