/** Seats, the role table that routes commands, and the hello handshake. */
module Envelope {
  import opened Commands
  import opened Script

  datatype Role = Infiltrator | Hacker

  datatype Seat = InfiltratorSeat | HackerSeat | EitherSeat

  function Other(r: Role): Role {
    if r == Infiltrator then Hacker else Infiltrator
  }

  function SeatFor(c: Command): Seat {
    match c
    case SetButton(_, _) => InfiltratorSeat
    case Jump => InfiltratorSeat
    case InteractPress => InfiltratorSeat
    case ThrowUsb => InfiltratorSeat
    case Uplink(_) => HackerSeat
    case Pivot(_) => HackerSeat
    case Unpivot => HackerSeat
    case NetSsh(_) => HackerSeat
    case NetHack(_) => HackerSeat
    case Signal(op) => (match op.issuer case SignalInfiltrator => InfiltratorSeat case SignalHacker => HackerSeat)
    case ForceCrisis => EitherSeat
    case ForceExtract(_) => EitherSeat
    case ForceFail(_) => EitherSeat
    case Pause(_) => EitherSeat
    case Restart => EitherSeat
  }

  /** Who authors a command that both seats may give, when a script is split: the infiltrator. */
  function ScriptedSender(c: Command): Role {
    match SeatFor(c)
    case InfiltratorSeat => Infiltrator
    case EitherSeat => Infiltrator
    case HackerSeat => Hacker
  }

  /// The handshake

  const NET_PROTO: nat := 2

  datatype Hello = Hello(
    proto: nat,
    role: Role,
    seed: nat,
    difficulty: string,
    reducedMotion: bool,
    maxTicks: nat,
    commands: nat,
    rejoin: bool)
  {
    predicate CompatibleWith(other: Hello) {
      && proto == other.proto
      && seed == other.seed
      && difficulty == other.difficulty
      && reducedMotion == other.reducedMotion
      && maxTicks == other.maxTicks
    }
  }

  function HelloFor(role: Role, script: ScriptFile, commands: nat): Hello {
    Hello(NET_PROTO, role, script.seed, script.difficulty, script.reducedMotion, script.maxTicks, commands, false)
  }

  /** Compatible hellos mean the same run, up to the one knob the hello does not carry. */
  lemma CompatibleMeansSameHeader(r: Role, a: ScriptFile, m: nat, q: Role, b: ScriptFile, n: nat)
    ensures HelloFor(r, a, m).CompatibleWith(HelloFor(q, b, n)) <==>
            b.(commands := a.commands, supervised := a.supervised) == a
  {
    var b' := b.(commands := a.commands, supervised := a.supervised);
    assert b' == a <==> a.seed == b.seed && a.difficulty == b.difficulty && a.reducedMotion == b.reducedMotion
                        && a.maxTicks == b.maxTicks;
  }

  /** Two hellos are compatible exactly when they differ in nothing but the seat, the count of commands and the
      rejoin flag: a seat of another protocol version is never compatible. */
  lemma CompatibleIff(a: Hello, b: Hello)
    ensures a.CompatibleWith(b) <==> b.(role := a.role, commands := a.commands, rejoin := a.rejoin) == a
  {
  }

  /** A supervised and an unsupervised seat shake hands: the flag that changes the simulation is not in
      the hello. */
  lemma SupervisionIsNotCompared(script: ScriptFile, m: nat, n: nat)
    ensures HelloFor(Infiltrator, script, m).CompatibleWith(
              HelloFor(Hacker, script.(supervised := !script.supervised), n))
    ensures script.(supervised := !script.supervised) != script
  {
    assert script.(supervised := !script.supervised).supervised != script.supervised;
  }
}
