# Verified model of the IDApTIK netplay core and its companions

This project models, in Dafny, the deterministic heart of IDApTIK and proves what the program relies on.

* **Delay lockstep.** Two live seats sample input ahead of execution, send sparse commands followed by cumulative
  commit watermarks, and execute a tick only when both watermarks cover it. A dead seat can be resynced from the
  survivor. `Lockstep`, `Streams`, `SeatInvariant`, `Netplay`, `NetplaySafety`, `NetplayTheorems` and
  `NetplayProgress` hold the protocol and its proofs, `InputDelay` what the delay buys, `RejoinRace` and `RejoinExact`
  where the promise ends; `LockstepCore.dfy` is the seat as a class with its maps, watermarks, held set and log, and
  `LivePair` drives two of them.
* **One script, two seats.** `Commands`, `Script`, `Seat` and `SplitMerge` show when splitting a script by seat,
  carrying it and re-merging it means what the whole script means. `Headless` is the reference run.
* **The batch session.** `HelloBarrier` and `BatchRun`: the hello exchange over a relay that keeps no history.
* **Beside them:** breadth-first hop paths (`Network`), the power cascade and how it lands (`PowerCascade`), pivots
  and the trace clock (`AgentSession`, `TraceClock`), the companion mole (`Moletaire`, `MoletaireTheorems`,
  `MoletaireMotion`), the wall-dressing interval allocator (`Backdrop`) and the package runner (`Package`).

The game simulation is abstract: a `Game` is a pair of functions for ticking and ending plus snapshot and restore.
The theorems that involve a resync or a replay take one hypothesis about it, `Faithful`: a snapshot restores to the
state it was taken from.

## Where the code and its description differ

* The header of `seat.rs` says a script can mis-order immediates only through its press lists. A test hook after a
  hacker press does it too. The exact condition is `Orderly`, and equality with `expand` holds if and only if it does.
* A hello carries every header field of the script but `supervised`, so a supervised and an unsupervised seat pass the
  compatibility check (`Envelope.SupervisionIsNotCompared`).
* A resync does not name the hello it answers, so a seat that keeps dying and rejoining can adopt a stale one. The
  survivor then meets a command it already has a commit for (`RejoinRace.UnansweredHellosCanCrashTheSurvivor`), or the
  two seats silently play different inputs for the same tick (`RejoinRace.UnansweredHellosCanDivergeTheSeats`). The
  exact condition is that a commit of an earlier process is queued at the survivor behind a hello that is still to be
  answered when the seat rejoins. Every other rejoin is harmless, however many hellos are unanswered, and the safety
  theorems allow it; from every reachable world that meets the condition, unless the game is over first, some
  continuation stops the survivor (`RejoinExact.AllowedExactlyIfSafe`). Deaths are unrestricted.
* `order_deliver` promises delivery on arrival. A mole that was given a move order while carrying is no longer in the
  carrying state, and a delivery order then hands nothing over (`MoletaireTheorems.HandsOverIff`).
* A mole whose stride in one tick is at least twice the distance at which it counts as arrived can step over its target
  and back for ever (`MoletaireMotion.OversteppingNeverArrives`); with a shorter stride it always gets there
  (`MoletaireMotion.ErrandsEnd`).
* A dead mole can still be fed, drop its items, change equipment (and shed what no longer fits), take a hunger target
  and have its coprocessors upgraded; dropping the last item sets its state to idle. Nothing else about it changes but
  the dodge timer and the queue (`MoletaireTheorems.DeathIsForGood`).
* `reachable_from` can return an id that was linked but never added as a device; `hop_path` refuses such an end
  (`Network.LinkedButNeverAdded`), and they disagree about nothing else (`Network.SearchBoth`).

## Model

| member | source | states |
|---|---|---|
| `NetplayTheorems.LiveRunIsTheReferenceRun` | crates/idaptik-net/src/lockstep.rs:206-368 | For any two input delays and any interleaving of pumps, deliveries, advances, silences, late notices, deaths of either seat and rejoins, but for a rejoin while a commit is queued behind an unanswered hello, a finished scripted seat has exactly the simulation and event log of the merged script, and those of the single-process reference run when every tick authors infiltrator immediates before hacker ones |
| `NetplaySafety.EveryRunKeepsTheInvariant` | crates/idaptik-net/src/lockstep.rs:10-24 | Every allowed run of the two-seat system, whoever dies when, keeps the system invariant: the buffer and the queue of every core in play, one still travelling in a hand-off included, lead to exactly what the peer sampled, and the core is the run of the merged histories |
| `NetplayTheorems.NoSeatEverCrashes` | crates/idaptik-net/src/lockstep.rs:231-261 | In an allowed run honest seats never cause a protocol error at each other, resyncs included; `RejoinExact.AllowedExactlyIfSafe` is the converse |
| `NetplayTheorems.SeatsRunTheMergedHistory` | crates/idaptik-net/src/lockstep.rs:272-301 | For arbitrary live feeds, each running seat has executed exactly the merged sampled histories up to its step |
| `NetplayTheorems.LogsNeverDiverge` | crates/idaptik-net/src/lockstep.rs:272-301 | The seat behind has a prefix of the other seat's log; at equal steps simulation, log and held set are equal |
| `NetplayTheorems.ReadyTicksAreComplete` | crates/idaptik-net/src/lockstep.rs:12-17 | When both watermarks cover a tick, the commands executed are all and only those both seats sampled for it, infiltrator first |
| `NetplayTheorems.BufferAndInboxAreTheHistory` | crates/idaptik-net/src/lockstep.rs:231-261 | While its peer is in play, a seat that works through its inbox, hellos and notices included, never fails, and its peer buffer is then exactly the peer's samples from its own step on |
| `NetplayTheorems.RecoveryIsMirror` | crates/idaptik-net/src/live.rs:303-356 | After a rejoin hello the survivor holds no uncommitted command, the waiting process becomes its mirror image at the committed watermark, and the system invariant holds |
| `NetplayTheorems.SurvivorDiesMidHandoff` | crates/idaptik-net/src/live.rs:303-316 | A survivor may die with its hand-off still travelling: the fresh process adopts a core in good standing and plays on, or the hand-off is lost and it never starts |
| `NetplayTheorems.PumpOverwritesNothing` | crates/idaptik-net/src/lockstep.rs:206-229 | A pump never overwrites a schedule entry a seat already holds, adopted ones included |
| `NetplayTheorems.FinishedSeatPlayedTheScript` | crates/idaptik-tui/src/headless.rs:38-48 | A finished seat over script histories equals the play of the merged script, stopping where the reference runner stops |
| `NetplayTheorems.ScriptedRunSamplesTheScript` | crates/idaptik-net/src/lockstep.rs:52-74 | In a scripted run every sampled tick, also one sampled again after a loss, is the script's own share of that tick |
| `SeatInvariant.AdvanceOk` | crates/idaptik-net/src/lockstep.rs:272-301 | A frame's advance keeps a seat's invariant and leaves every unexecuted tick of both buffers alone |
| `SeatInvariant.PumpOk` | crates/idaptik-net/src/lockstep.rs:206-229 | A pump extends the sampled history by exactly the feed's ticks and keeps the seat's invariant |
| `SeatInvariant.PeerCommandOk` | crates/idaptik-net/src/lockstep.rs:231-249 | A command at or above the watermark and inside the run is accepted and keeps the seat's invariant |
| `SeatInvariant.PeerCommitOk` | crates/idaptik-net/src/lockstep.rs:251-261 | A commit covering exactly the sender's history is accepted and raises the watermark over complete ticks only |
| `SeatInvariant.LostPeerOk` | crates/idaptik-net/src/lockstep.rs:263-268 | Pruning on loss keeps the seat's invariant over the committed part of the peer's history and leaves no uncommitted command |
| `SeatInvariant.MirrorOk` | crates/idaptik-net/src/lockstep.rs:327-368 | The mirror of a pruned seat satisfies the invariant of the other role over the committed histories |
| `SeatInvariant.ReachableIsTransferable` | crates/idaptik-net/src/lockstep.rs:303-325 | Every reachable core has a clean held set and no empty command list, which is what a hand-off needs |
| `NetplaySafety.DieKeeps` | crates/idaptik-net/src/live.rs:234-239 | A death at any point, also of both seats or with a hand-off travelling, losing any suffix of what the seat had sent, noticed or not, keeps the system invariant |
| `NetplaySafety.RejoinKeeps` | crates/idaptik-net/src/live.rs:17-18 | A rejoin keeps the system invariant unless a commit is queued behind an unanswered hello |
| `NetplaySafety.HelloKeeps` | crates/idaptik-net/src/live.rs:222-230 | Answering a rejoin hello, held or mid-run, stale or not, whatever has become of its sender, keeps the system invariant |
| `NetplaySafety.AwaitKeeps` | crates/idaptik-net/src/live.rs:406-413 | A joining seat that drops everything before the first resync and then adopts it keeps the system invariant: the core it adopts is the one the hand-off carried |
| `NetplaySafety.DataAccepted` | crates/idaptik-net/src/lockstep.rs:231-261 | The next command or commit in flight is accepted, and the core reads it exactly as the queue of its peer expects |
| `NetplaySafety.HoldKeeps` | crates/idaptik-net/src/live.rs:267-277 | A running seat may stop listening at any moment, for a silence or for a notice that comes late, without breaking the invariant |
| `RejoinRace.UnansweredHellosCanCrashTheSurvivor` | crates/idaptik-net/src/live.rs:392-434 | A concrete run: a resync is not matched to the hello it answers, so a fourth process adopts the answer to an earlier one's hello, samples a committed tick again, and the survivor stops with a protocol error |
| `RejoinRace.UnansweredHellosCanDivergeTheSeats` | crates/idaptik-net/src/lockstep.rs:18-24 | The same race without an error: both seats stand at step 1 with nothing left to read, and have played different inputs for tick 0 |
| `RejoinExact.AllowedExactlyIfSafe` | crates/idaptik-net/src/live.rs:303-356 | In every reachable world the rejoin of a dead seat is one the safety theorems allow exactly if no continuation without further rejoins can stop the peer with a protocol error, as long as a running peer's game is not over within the ticks the dead seat had sampled |
| `RejoinExact.RejoinIsSafeIff` | crates/idaptik-net/src/live.rs:303-356 | The same for every world that keeps the invariant: with a running survivor a protocol error can follow the rejoin if and only if a commit is queued at the survivor behind an unanswered hello |
| `RejoinExact.ReturnEndsBadly` | crates/idaptik-net/src/live.rs:392-434 | The unsafe half as a construction: the survivor answers the stale hello, both play up to the disputed tick, and the fresh process samples it again |
| `InputDelay.PumpBuysTheDelay` | crates/idaptik-net/src/lockstep.rs:206-229 | A pump of a seat that is not done samples exactly to step + delay + 1 or the end of the run, each tick from the feed; a seat that is done samples nothing |
| `InputDelay.PeerHearsTheDelay` | crates/idaptik-net/src/lockstep.rs:206-261 | Once the peer has read what a pump sent, its watermark covers the pumping seat's step and delay |
| `InputDelay.PeerPlaysOn` | crates/idaptik-net/src/lockstep.rs:206-301 | It then plays on without another word from the pumping seat as far as both delays reach, unless the game ends |
| `InputDelay.DelayCoversThePeer` | crates/idaptik-net/src/lockstep.rs:10-24 | The same in every state of every loss-free run, for the two delays the seats started with |
| `InputDelay.AdvanceRunsOn` | crates/idaptik-net/src/lockstep.rs:272-301 | An advance runs on to the first tick a watermark does not cover, unless the game ends first |
| `InputDelay.OnlyThePeerHoldsUp` | crates/idaptik-net/src/lockstep.rs:192-204 | After a pump an unfinished seat can go on or is blocked on the peer's watermark, which then stands at its own step |
| `InputDelay.SilenceIsLossIff` | crates/idaptik-net/src/live.rs:263-277 | Silence is taken for loss exactly by a listening seat that has sampled its next tick and waits for the peer's watermark; it keeps what the peer committed and nothing else |
| `NetplayProgress.NoDeadlock` | crates/idaptik-net/src/lockstep.rs:192-204 | With both seats pumped and both queues drained, an unfinished pair always has a seat that can execute a tick or mark itself ended |
| `NetplayProgress.EveryMoveIsProgress` | crates/idaptik-net/src/lockstep.rs:272-301 | Without loss every pump, delivery or advance either changes nothing or strictly lowers the remaining work |
| `NetplayProgress.RunsAreBounded` | crates/idaptik-net/src/lockstep.rs:206-301 | The number of moves that change anything in a loss-free run is bounded by the initial work |
| `NetplayProgress.StuckMeansFinished` | crates/idaptik-net/src/lockstep.rs:192-204 | When no move of either seat changes anything both seats have finished |
| `NetplayProgress.SeatsStayClose` | crates/idaptik-net/src/lockstep.rs:206-261 | Without loss each sample head is within its delay + 1 of its step, a seat leads by at most the other delay + 1, and a peer buffer holds at most delay + delay + 2 ticks |
| `NetplayProgress.HeadsStayBounded` | crates/idaptik-net/src/lockstep.rs:206-229 | In every run, losses and recoveries included, the sample head of a running seat is at most step + delay + 1, or where the hand-off it last adopted had put it |
| `NetplayProgress.HeadStaysBounded` | crates/idaptik-net/src/lockstep.rs:206-229 | No action of a seat moves its sample head past its floor or step + delay + 1 |
| `NetplayProgress.BufferedTicks` | crates/idaptik-net/src/lockstep.rs:231-249 | Every buffered peer tick lies between the seat's step and the peer's sample head |
| `Streams.PumpExtendsStream` | crates/idaptik-net/src/lockstep.rs:202-229 | A pump's commands followed by its commit extend what the receiver is still owed by exactly the newly sampled ticks |
| `Streams.StreamCut` | crates/idaptik-net/src/lockstep.rs:18-24 | Losing any suffix of the messages in flight, with a notice or a hello after what is left, leaves a queue that never breaks the protocol and whose every commit leaves complete ticks |
| `Lockstep.CommandsAreRefusedIff` | crates/idaptik-net/src/lockstep.rs:234-249 | A peer command is refused exactly below the watermark or past the run, with the reason in that order; otherwise it joins the end of its tick's list and nothing else changes |
| `Lockstep.CommitsAreRefusedIff` | crates/idaptik-net/src/lockstep.rs:252-261 | A commit is refused exactly past the run; otherwise the watermark covers it and never falls |
| `Lockstep.AdoptRefusesIff` | crates/idaptik-net/src/lockstep.rs:331-345 | A hand-off is refused exactly from the same seat, for a snapshot that does not restore or for an unknown button, with the first of these as the reason |
| `Lockstep.ResyncIsMirror` | crates/idaptik-net/src/lockstep.rs:303-368 | Adopting a resync in the other role swaps the two schedules and the two watermarks and keeps step, simulation, log and held set |
| `Lockstep.ResyncTwiceIsIdentity` | crates/idaptik-net/src/lockstep.rs:303-368 | A resync handed on and handed back is the original core |
| `Lockstep.HeldSetsTravel` | crates/idaptik-net/src/lockstep.rs:377-391 | Encoding a held set as tokens and decoding it gives the same set |
| `Lockstep.TokensAreNames` | crates/idaptik-net/src/lockstep.rs:377-391 | The tokens of a hand-off are exactly the held buttons, each by its own first name |
| `Lockstep.SchedulesTravel` | crates/idaptik-net/src/lockstep.rs:307-312 | Flattening a schedule to pending commands and gathering it gives the same schedule |
| `LiveSeat.LockstepCore.PumpOutgoing` | crates/idaptik-net/src/lockstep.rs:206-229 | The sampling loop: the new state and the sent messages, in order, as the specification function says |
| `LiveSeat.LockstepCore.OnPeerCommand` | crates/idaptik-net/src/lockstep.rs:234-249 | Buffers the command, or reports a command after its commit or past the run and changes nothing |
| `LiveSeat.LockstepCore.OnPeerCommit` | crates/idaptik-net/src/lockstep.rs:252-261 | Raises the watermark, never lowers it, or reports a commit past the run |
| `LiveSeat.LockstepCore.OnPeerLost` | crates/idaptik-net/src/lockstep.rs:265-268 | Drops exactly the buffered peer commands at or above the watermark |
| `LiveSeat.LockstepCore.Advance` | crates/idaptik-net/src/lockstep.rs:272-301 | The execution loop reaches the specified state: every ready tick executed once, an ended simulation never ticked |
| `LiveSeat.LockstepCore.MakeResync` | crates/idaptik-net/src/lockstep.rs:306-325 | Builds exactly the specified hand-off |
| `LiveSeat.LockstepCore.Adopt` | crates/idaptik-net/src/lockstep.rs:331-368 | Builds a core in exactly the specified state, or reports same seat, failed restore or unknown button |
| `LiveSeat.ByTickHoldsTheSchedule` | crates/idaptik-net/src/lockstep.rs:55-74 | The script feed serves, for each tick, exactly that tick's scheduled commands in order |
| `LivePair.RunPair` | crates/idaptik-net/src/live.rs:166-283 | Two live seats over lossless queues, each running frames of pump, read and advance in any order that starves neither, terminate, agree, and end as the merged script's run (the reference run for an orderly script) |
| `SplitMerge.SplitMergePreservesMeaning` | crates/idaptik-net/src/seat.rs:4-24 | Tick by tick the re-merged halves give the reference buttons and edges, and its immediates stably partitioned by author |
| `SplitMerge.SplitMergeEqualsExpandIff` | crates/idaptik-net/src/seat.rs:4-24 | Splitting, carrying and re-merging equals `expand` if and only if each tick's immediates are already infiltrator-first |
| `SplitMerge.HookAfterUplinkIsNotOrderly` | crates/idaptik-net/src/seat.rs:17-23 | A single line with a hacker press and a test hook is already out of order, although its press list is not mixed: the header comment names press lists only |
| `SplitMerge.PartitionIsIdentityIff` | crates/idaptik-net/src/seat.rs:104-118 | Infiltrator-then-hacker merging leaves a command list alone exactly when no hacker command precedes an infiltrator one |
| `SplitMerge.RemergedMeaning` | crates/idaptik-net/src/seat.rs:104-132 | Re-merging a stream keeps its held set and edges and partitions its immediates |
| `SplitMerge.SplitAndMerge` | crates/idaptik-net/src/seat.rs:43-132 | The whole pipeline computes the merged script's inputs, equal to the dense expansion exactly for orderly scripts |
| `SeatSplit.ScheduleIsTheSeatsPart` | crates/idaptik-net/src/seat.rs:49-96 | A seat's schedule holds for each tick exactly the commands of that tick's wire stream the seat authors |
| `SeatSplit.WireLinesMeaning` | crates/idaptik-net/src/seat.rs:49-96 | Hold diffs, presses and hooks on the wire leave the held set, edges and immediates of the lines they encode |
| `SeatSplit.DiffsReplace` | crates/idaptik-net/src/seat.rs:12-16 | Applying a hold line's press and release diffs gives exactly the set the line replaces the held set with |
| `SeatSplit.SeatSchedule` | crates/idaptik-net/src/seat.rs:49-96 | The split loop computes the specified schedule, which holds only commands of the seat's own side (uplink, pivots, net view and its own signals for the hacker, everything else for the infiltrator), at ticks of the run, in tick order |
| `SeatSplit.EachCommandHasOneSeat` | crates/idaptik-net/src/envelope.rs:66-104 | Every press and hook authored at a tick of the run is sent by exactly one seat, as often as it was authored |
| `SeatSplit.HackerNeverHolds` | crates/idaptik-net/src/envelope.rs:66-70 | The hacker's schedule never holds a button, jumps, interacts or throws |
| `SeatSplit.MergedByTick` | crates/idaptik-net/src/seat.rs:104-118 | Each tick's slot is the infiltrator's commands for it, then the hacker's |
| `SeatSplit.TickInputs` | crates/idaptik-net/src/seat.rs:122-132 | Threads the held set through the ticks and folds each once |
| `Script.Expand` | crates/idaptik-tui/src/script.rs:168-212 | The cursor loop computes the dense meaning: per tick the last hold so far, and that tick's edges and immediates in authored order |
| `Script.DenseHolds` | crates/idaptik-tui/src/script.rs:168-212 | In the dense form a button is down at a tick exactly if the latest hold authored up to it names the button; before any hold nothing is down |
| `Script.HoldWords` | crates/idaptik-tui/src/script.rs:80-89 | A word holds a button exactly if, trimmed and in small letters, it is one of the button's names |
| `Script.PressWords` | crates/idaptik-tui/src/script.rs:93-131 | A word presses a command exactly if, trimmed and in small letters, it is one of the command's names |
| `Script.HookWords` | crates/idaptik-tui/src/script.rs:62-76 | A test hook forces what it names; an unknown way out is the service exit and an unknown reason is being caught |
| `Script.TrimTakesTheEnds` | crates/idaptik-tui/src/script.rs:80-93 | Trimming takes white space off both ends of a word and nothing else |
| `Script.TokensAreSmall` | crates/idaptik-tui/src/script.rs:80-93 | Of a trimmed word only the ASCII capitals change, each to its own small letter |
| `Script.SortIsStable` | crates/idaptik-tui/src/script.rs:168-175 | Sorting by tick keeps each tick's lines in authored order |
| `Script.Classify` | crates/idaptik-tui/src/script.rs:155-163 | An edge command goes to the edge queue, any other press to the immediates, in order |
| `Commands.Fold` | crates/idaptik-core/src/scenario/command.rs:171-198 | One pass leaves each button as its last write says, answers the edge commands in order each with its own kind of edge, and queues exactly the remaining commands that hold no button, in order |
| `Commands.EdgesAreCounted` | crates/idaptik-core/src/scenario/command.rs:171-198 | There are as many jump, interact and throw edges as commands that ask for each |
| `Commands.LastWriteWins` | crates/idaptik-core/src/scenario/command.rs:171-198 | A button is held after a stream exactly as its last write says, or as before |
| `Commands.HeldIsSequential` | crates/idaptik-core/src/scenario/command.rs:5-7 | Folding two streams one after the other holds what folding their concatenation holds |
| `Commands.HeldSetsAreExtensional` | crates/idaptik-core/src/scenario/command.rs:27-45 | Held sets with only button bits are determined by which buttons they have |
| `Headless.Simulate` | crates/idaptik-tui/src/headless.rs:38-48 | The reference runner plays the dense expansion, never ticking an ended simulation |
| `Headless.ExecIsPlay` | crates/idaptik-tui/src/headless.rs:38-48 | Executing merged ticks until they run out or the simulation ends is playing their folded inputs |
| `Envelope.CompatibleMeansSameHeader` | crates/idaptik-net/src/envelope.rs:183-190 | Two hellos are compatible exactly when the scripts' headers agree up to the supervised flag |
| `Envelope.CompatibleIff` | crates/idaptik-net/src/envelope.rs:183-190 | Two hellos are compatible exactly when they differ in nothing but seat, command count and rejoin flag |
| `Envelope.SupervisionIsNotCompared` | crates/idaptik-net/src/envelope.rs:146-190 | A supervised and an unsupervised seat pass the handshake although their scripts are not the same |
| `HelloBarrier.EverySessionMeets` | crates/idaptik-net/src/session.rs:6-10 | For every join order and interleaving over a relay without history the barrier invariant holds |
| `HelloBarrier.HelloComesFirst` | crates/idaptik-net/src/session.rs:195-223 | A waiting seat never finds a command before the peer's hello, so the wait consumes none |
| `HelloBarrier.CollectedIsTheSchedule` | crates/idaptik-net/src/session.rs:236-277 | No seat of a session without connection failures sees a loss, and what it collects is exactly the peer's schedule in order |
| `HelloBarrier.StuckSessionsAreOver` | crates/idaptik-net/src/session.rs:87-130 | A session in which no step is possible is over for both seats, each holding the other's whole schedule |
| `HelloBarrier.EveryStepIsProgress` | crates/idaptik-net/src/session.rs:87-130 | Each step of either seat changes nothing or lowers a count of phases left, commands unsent and messages unread |
| `HelloBarrier.SessionsAreBounded` | crates/idaptik-net/src/session.rs:87-130 | Any run of any session makes at most two effective steps per scheduled command and twenty more |
| `HelloBarrier.MismatchedSessionsNeverStream` | crates/idaptik-net/src/session.rs:109-113 | Two seats of the same side, or configured for different runs, never stream a command |
| `HelloBarrier.MismatchedSessionsAreRefused` | crates/idaptik-net/src/session.rs:105-113 | When neither seat of a session configured for different runs can take another step, both have found out and refused |
| `HelloBarrier.DepartureIsALossIff` | crates/idaptik-net/src/session.rs:236-258 | A departure read while commands are owed is a loss with what was collected so far, and none once all are there |
| `BatchRun.RunCollected` | crates/idaptik-net/src/session.rs:149-164 | A batch seat that collected its peer's schedule ends in the merged script's run |
| `BatchRun.CompletedSeatsHoldTheScript` | crates/idaptik-net/src/session.rs:96-130 | A batch seat past collection holds exactly the other seat's schedule of the script |
| `Network.NetworkGraph.HopPath` | crates/idaptik-core/src/network.rs:91-124 | A path exactly when both devices exist and are connected; it starts and ends right, follows links, is of minimum length and repeats no device |
| `Network.NetworkGraph.ReachableFrom` | crates/idaptik-core/src/network.rs:126-143 | Exactly the ids connected to the foothold, or nothing when it is no device |
| `Network.SearchBoth` | crates/idaptik-core/src/network.rs:91-143 | A hop path exists exactly to the ids that are reachable and were added as devices: the two searches disagree exactly about a reachable id that never was |
| `Network.LinkedButNeverAdded` | crates/idaptik-core/src/network.rs:56-61 | A concrete graph of one device with a link to an id that was never added: it is reachable, and no hop path leads to it |
| `Network.NetworkGraph.Link` | crates/idaptik-core/src/network.rs:57-61 | Adds the link in both directions and nothing else |
| `Network.NetworkGraph.AddDevice` | crates/idaptik-core/src/network.rs:49-54 | Replaces the device and keeps its links |
| `Network.FoundIsShortest` | crates/idaptik-core/src/network.rs:91-124 | The path recorded when the target is first seen is a shortest one without repeats |
| `Network.ShortPathsAreSeen` | crates/idaptik-core/src/network.rs:91-124 | When a level is being expanded every shorter path's end has been seen, no deeper than the path is long |
| `Network.NothingUnseen` | crates/idaptik-core/src/network.rs:126-143 | When nothing is queued every reachable vertex has been seen |
| `Network.Reconstruct` | crates/idaptik-core/src/network.rs:107-116 | Following the recorded predecessors back ends at the source and yields the recorded path |
| `PowerCascade.Walk` | crates/idaptik-core/src/netsim/effect.rs:48-61 | The worklist terminates on cyclic dependencies and sees exactly the ids fed by the cut node |
| `PowerCascade.ApplyActuation` | crates/idaptik-core/src/netsim/effect.rs:40-68 | Nothing for a missing or inert node, the direct effect otherwise, and for a cut a loss for each downstream node in declaration order |
| `PowerCascade.CutListsDownstream` | crates/idaptik-core/src/netsim/effect.rs:62-66 | The losses listed are exactly the downstream nodes, once each when ids are unique |
| `PowerCascade.LossesAreTheDead` | crates/idaptik-core/src/netsim/effect.rs:62-66 | A loss is listed for an id exactly when it is a dead node of the graph other than the source |
| `PowerCascade.EachLossOnce` | crates/idaptik-core/src/netsim/effect.rs:62-66 | With unique ids no loss is listed twice |
| `PowerCascade.Floor.CutSupply` | crates/idaptik-core/src/scenario/agents.rs:164-178 | A cut adds exactly itself and everything downstream to the dead nodes, darkens the floor exactly when a light is hit, changes nothing else, and reports one power loss of that size exactly when something fell |
| `PowerCascade.Floor.ApplyEffects` | crates/idaptik-core/src/scenario/agents.rs:96-185 | The effect loop lands every kind of effect - doors, camera loops, lights, the vacuum, cuts and losses - as specified and raises the specified events in order |
| `PowerCascade.HoldsOneDoor` | crates/idaptik-core/src/scenario/agents.rs:105-123 | A hold reaches the first door of the plan that answers to the node: it waits out its own delay with no badge logged, is counted and reported, and nothing else changes |
| `PowerCascade.LoopsOneCamera` | crates/idaptik-core/src/scenario/agents.rs:124-137 | A loop reaches the first camera of that node if the run has a slot for it, and pings |
| `PowerCascade.StraysAreIgnored` | crates/idaptik-core/src/scenario/agents.rs:105-137 | An id that is no door or no camera, and the actuations this floor does not have, change nothing and raise nothing |
| `PowerCascade.LightsAreKilled` | crates/idaptik-core/src/scenario/agents.rs:138-151 | Killed lights darken for the duration, never shorten a stun, are counted, and the third use is told apart; a dead camera is only a dead node |
| `PowerCascade.VacuumRuns` | crates/idaptik-core/src/scenario/agents.rs:152-163 | The vacuum runs to its mark unless it has fallen, and then nothing happens |
| `PowerCascade.CutLands` | crates/idaptik-core/src/scenario/agents.rs:79-84 | The landing of a cut and its losses, as the closure |
| `AgentSession.PivotingCannotStall` | crates/idaptik-core/src/netsim/session.rs:119-197 | However an agent pivots, exits, moves and scrubs, after n tracing touches the progress is at least min(threshold, n * max(1, 5 / (P + 1))) for P pivotable addresses |
| `AgentSession.TracedForGood` | crates/idaptik-kernel/src/trace.rs:90-94 | Enough touches trace the agent and no later operation takes it back |
| `AgentSession.StackStaysOk` | crates/idaptik-core/src/netsim/session.rs:123-148 | Every run keeps the pivot stack free of repeats and of the entry host, made of pivotable hosts each reachable from the one below |
| `AgentSession.DepthIsBounded` | crates/idaptik-core/src/netsim/session.rs:101-121 | The stack is never deeper than the number of pivotable addresses |
| `AgentSession.Agent.Ssh` | crates/idaptik-core/src/netsim/session.rs:123-148 | The pivot, with its refusals in their order: it lands only on a reachable workstation or server the agent neither stands on nor entered by, charges the node's price over the hops, and changes nothing when refused |
| `AgentSession.Agent.Hack` | crates/idaptik-core/src/netsim/session.rs:167-187 | The hack: refused exactly for an unknown node or one out of reach of the host stood on, without a trace; free of trace exactly at the entry host in the node's own segment, charged otherwise; logged, with exactly the actuation's effects |
| `AgentSession.TouchesIff` | crates/idaptik-core/src/netsim/session.rs:119-187 | Which operations run the trace clock, over the graph's own fields |
| `AgentSession.EachLevelDoubles` | crates/idaptik-core/src/netsim/session.rs:55-62 | Each level of security costs twice the one below it, from 5 |
| `AgentSession.Agent.Exit` | crates/idaptik-core/src/netsim/session.rs:194-197 | Pops one pivot and says whether there was one |
| `AgentSession.Agent.Scrub` | crates/idaptik-core/src/netsim/session.rs:189-192 | Removes that node's logs and keeps the others in order |
| `AgentSession.WithoutSplits` | crates/idaptik-core/src/netsim/session.rs:189-192 | Scrubbing goes entry by entry and leaves the others where they were |
| `AgentSession.WithoutKeepsTheRest` | crates/idaptik-core/src/netsim/session.rs:189-192 | Scrubbing drops every entry of its node and no other |
| `AgentSession.Agent.SetVantage` | crates/idaptik-core/src/netsim/session.rs:79-84 | Moves the entry host and drops the stack; the trace and logs persist |
| `TraceClock.Advanced` | crates/idaptik-kernel/src/trace.rs:81-88 | Progress is capped at the threshold and never falls; while an intrusion is active and not yet traced every advance gains |
| `TraceClock.AdvanceAddsTheGain` | crates/idaptik-kernel/src/trace.rs:61-88 | An advance adds the cost shared out over the hops, rounded down but never to nothing, and stops at the threshold |
| `TraceClock.Trace.Advance` | crates/idaptik-kernel/src/trace.rs:81-88 | The clock advances by the guarded, saturating rate |
| `TraceClock.RateIsMonotone` | crates/idaptik-kernel/src/trace.rs:61-65 | More cost or fewer hops never slow the clock |
| `MoletaireTheorems.ItemsAreConserved` | crates/idaptik-core/src/companion/sim.rs:531-600 | Over every run what was picked up is what is carried, delivered, eaten, dropped or shed; the load fits the capacity; a carrying mole carries something |
| `MoletaireTheorems.DeathIsForGood` | crates/idaptik-core/src/companion/sim.rs:709-722 | From a dead mole no inputs revive it, move it, turn it or draw randomness; orders, timers, glide and scans are frozen; its load only shrinks, its hunger can only be fed to zero, and its state only become idle with nothing carried |
| `MoletaireTheorems.DeadStep` | crates/idaptik-core/src/companion/sim.rs:446-600 | Of all inputs only feeding changes a dead mole's hunger and only a drop its state |
| `MoletaireTheorems.DeathIsNeverReported` | crates/idaptik-core/src/companion/sim.rs:25-34 | No run reaches the terminal state or reports a death, because both deaths clear `alive` first |
| `MoletaireTheorems.TickFreezesTheDead` | crates/idaptik-core/src/companion/sim.rs:914-1045 | A tick changes nothing in a dead mole but its dodge timer and the drained queue |
| `MoletaireTheorems.DrawsAreAccountedFor` | crates/idaptik-core/src/companion/sim.rs:11-18 | Every random draw is one delivery's eat roll or one starving wander |
| `MoletaireTheorems.HandsOverIff` | crates/idaptik-core/src/companion/sim.rs:786-807 | A tick hands an item over exactly when a living mole in the carrying state stands within reach of its target; a delivery order alone does not |
| `MoletaireTheorems.CommandKeepsBooks` | crates/idaptik-core/src/companion/sim.rs:446-600 | Every command keeps the item ledger balanced |
| `MoletaireTheorems.TickKeepsBooks` | crates/idaptik-core/src/companion/sim.rs:914-1045 | Every tick keeps the item ledger balanced |
| `MoletaireMotion.MoveOrdersAreCarriedOut` | crates/idaptik-core/src/companion/sim.rs:494-510 | A living mole told to go somewhere gets there, diving or surfacing if it must, within one tick of the time its pace takes, if it stays calm and its stride is less than twice the arrival distance |
| `MoletaireMotion.ErrandsEnd` | crates/idaptik-core/src/companion/sim.rs:742-821 | The same for any mole with a target in a walking or carrying state |
| `MoletaireMotion.DeliveriesAreCarriedOut` | crates/idaptik-core/src/companion/sim.rs:573-579 | A loaded mole in the carrying state told where to deliver gets there |
| `MoletaireMotion.OversteppingNeverArrives` | crates/idaptik-core/src/companion/sim.rs:787-821 | The bound on the stride is needed: with a longer one a mole half a stride away steps over its target and back for ever |
| `MoletaireMotion.StrideGoesToTheTarget` | crates/idaptik-core/src/companion/sim.rs:754-821 | A mole that is not there yet takes one stride of its pace to the side its target lies on and faces that way |
| `MoletaireMotion.StrideComesNearer` | crates/idaptik-core/src/companion/sim.rs:812-819 | A stride no longer than the way left ends nearer by itself and never past the target |
| `MoletaireMotion.ReachIsArrival` | crates/idaptik-core/src/companion/sim.rs:787-811 | Within reach the mole stands on its target, has none left, and reports it |
| `MoletaireMotion.TheRollDecides` | crates/idaptik-core/src/companion/sim.rs:792-808 | The roll against the chance decides whether the first item is eaten or delivered |
| `MoletaireMotion.DepthGoesWhereOrdered` | crates/idaptik-core/src/companion/sim.rs:743-753 | Depth changes toward the depth ordered and stays there once close |
| `MoletaireMotion.WorkTakesItsTime` | crates/idaptik-core/src/companion/sim.rs:836-861 | A calm mole at work stays at it exactly until its timer runs out, and then the job is done and reported where it stands |
| `MoletaireMotion.WorkOrdersAreTakenUp` | crates/idaptik-core/src/companion/sim.rs:512-529 | A living mole deep enough takes up a job with the time that job takes; any other refuses |
| `MoletaireMotion.GlidesTheWayItFaces` | crates/idaptik-core/src/companion/sim.rs:882-900 | A flying mole goes the way it faces by a fixed share of its distance until its progress is full, and lands on the surface |
| `MoletaireMotion.GlidesAreLaunchedIff` | crates/idaptik-core/src/companion/sim.rs:609-626 | A glide is launched exactly by a living mole with the glider on the surface |
| `MoletaireMotion.DistractionDraws` | crates/idaptik-core/src/companion/sim.rs:862-881 | A distracted mole is drawn toward its distraction at surface pace until its time is up |
| `MoletaireMotion.WiresDistractIff` | crates/idaptik-core/src/companion/sim.rs:690-706 | A loose wire distracts exactly a living mole within range that is not at work |
| `MoletaireMotion.HungryMolesAreDrawn` | crates/idaptik-core/src/companion/sim.rs:993-1030 | A hungry mole is drawn the way the field pulls, wholly while it resists and by a share otherwise, resists from each interval for an episode, and wanders by one draw when starving with nothing near |
| `MoletaireMotion.FedMolesObey` | crates/idaptik-core/src/companion/sim.rs:1031-1043 | Short of the hungry threshold nothing pulls and any resistance ends |
| `MoletaireMotion.HungerGrows` | crates/idaptik-core/src/companion/sim.rs:958-978 | Hunger only grows by its rate, up to full |
| `MoletaireMotion.ScansComeRound` | crates/idaptik-core/src/companion/sim.rs:931-956 | Under ground the two scans come round each interval, in order, with what they find |
| `MoletaireMotion.TakesWhileThereIsRoom` | crates/idaptik-core/src/companion/sim.rs:532-552 | A living mole takes an item exactly while it carries fewer than its rucksack, or its paws, can hold |
| `MoletaireMotion.DropsTheFirst` | crates/idaptik-core/src/companion/sim.rs:554-571 | A drop takes out the first item of the name and idles the mole only if it was the last one |
| `MoletaireMotion.GearIsChanged` | crates/idaptik-core/src/companion/sim.rs:581-600 | New gear replaces the old; only taking off the rucksack sheds, down to the base capacity |
| `MoletaireMotion.UpgradesRaiseOneLevel` | crates/idaptik-core/src/companion/sim.rs:485-488 | An upgrade raises its own coprocessor one level, up to the last, and no other |
| `MoletaireMotion.StarvedHungersFaster` | crates/idaptik-core/src/companion/sim.rs:958-978 | A starved mole hungers half again as fast as a fed one |
| `MoletaireMotion.MovingHungersThrice` | crates/idaptik-core/src/companion/sim.rs:958-978 | A mole on the move hungers three times as fast as a resting one |
| `MoletaireMotion.TickReportsInOrder` | crates/idaptik-core/src/companion/sim.rs:909-1045 | A tick's events come in order: what was queued, the state machine's, the scans', then hunger's |
| `MoletaireMotion.SignalsAreGivenIff` | crates/idaptik-core/src/companion/sim.rs:603-647 | The flash and the synthesiser give their event exactly for a living mole with the means, and change nothing else |
| `MoletaireMotion.FeedingSates` | crates/idaptik-core/src/companion/sim.rs:725-731 | Feeding ends hunger, its target and any resistance |
| `MoletaireMotion.DeathsAreTold` | crates/idaptik-core/src/companion/sim.rs:709-722 | Each death is told by its own state, once |
| `MoletaireMotion.DodgesRunDown` | crates/idaptik-core/src/companion/sim.rs:928-931 | The dodge timer runs down while there is any of it |
| `MoletaireMotion.NewbornsAreFresh` | crates/idaptik-core/src/companion/sim.rs:390-434 | A new mole is idle on the surface, fed, alive and carries nothing |
| `Moletaire.MoletaireSim.Apply` | crates/idaptik-core/src/companion/sim.rs:446-490 | Each command changes exactly what the specification function says |
| `Moletaire.MoletaireSim.Tick` | crates/idaptik-core/src/companion/sim.rs:914-1045 | A tick moves, scans and hungers in order and returns every queued event |
| `Moletaire.MoletaireSim.UpdateMovement` | crates/idaptik-core/src/companion/sim.rs:740-821 | Depth then position, with the eat roll drawn before the chance is compared |
| `Moletaire.MoletaireSim.UpdateState` | crates/idaptik-core/src/companion/sim.rs:825-911 | One step of the state machine, nothing for a dead mole |
| `Moletaire.MoletaireSim.UpdateHunger` | crates/idaptik-core/src/companion/sim.rs:975-1039 | Hunger grows capped, the mole looks at the nearest edible, resists or drags, wanders by one draw when starving, and reports the transition |
| `Moletaire.MoletaireSim.DoDropItem` | crates/idaptik-core/src/companion/sim.rs:554-571 | Removes the first matching item, idling an emptied mole |
| `Moletaire.MoletaireSim.ChangeEquipment` | crates/idaptik-core/src/companion/sim.rs:581-600 | Leaving the rucksack truncates the load to the base capacity |
| `Backdrop.Dress` | crates/idaptik-bevy/src/backdrop.rs:191-253 | Pieces on one line are a gap apart, off the walls and off what was there; each list entry hangs at most once per pass, and less often only if its line has no free stretch left as long as the piece; turn k is the entry at seed + k, taken on what the turns before it left |
| `Backdrop.Passes` | crates/idaptik-bevy/src/backdrop.rs:226-232 | One round of the list for every 400 units of wall begun, and never less than one |
| `Backdrop.HangOne` | crates/idaptik-bevy/src/backdrop.rs:229-251 | One turn hangs the piece in the middle of the widest span that fits, the last of equals, or skips it because none fits |
| `Backdrop.Free` | crates/idaptik-bevy/src/backdrop.rs:199-216 | The free spans keep clear of what is taken, are far enough apart, and miss no free stretch |
| `Backdrop.WidestFit` | crates/idaptik-bevy/src/backdrop.rs:234-243 | The widest span that fits, the last of equals, or none exactly when none fits |
| `Backdrop.LowStandsOnTheFloor` | crates/idaptik-bevy/src/backdrop.rs:217-235 | Low pieces share the floor's line; the eye and the high line are their own |
| `Backdrop.HungOk` | crates/idaptik-bevy/src/backdrop.rs:244-250 | Hanging a piece keeps the line in order and never makes a wider piece fit |
| `Backdrop.OneTurnARound` | crates/idaptik-bevy/src/backdrop.rs:225-230 | In r rounds of the list every entry's turn comes r times, wherever the seed starts |
| `Package.RunPackage` | crates/idaptik-core/src/package.rs:377-447 | With faithful snapshots the replay never mismatches, the snapshot is missed exactly when it lies outside the run, and the result carries the run's events, the guard's appraisals and both snapshots unless a required event is missing |
| `Package.LoadAndRun` | crates/idaptik-core/src/package.rs:167-258 | An accepted package can only fail for a missing required event, and its ticks play exactly the authored commands in order |
| `Package.TicksCoverTheSchedule` | crates/idaptik-core/src/package.rs:367-374 | For an ordered, bounded schedule the per-tick lists concatenate to the authored list |
| `Package.Load` | crates/idaptik-core/src/package.rs:232-247 | An accepted package has an ordered, bounded schedule whose snapshot splits the run |
| `Package.TraceAppraisesThePings` | crates/idaptik-core/src/package.rs:388-395 | The appraisal trace is in order of tick and stage without repeats and holds all six stages of exactly the ticks that pinged a camera |
| `Package.LoadAcceptsIff` | crates/idaptik-core/src/package.rs:167-258 | A package is accepted exactly when format, contract, game, profile, scenario, vocabulary, actors, the bound guard, schedule and guarantees are all in order |
| `Package.RefusalsAreTrue` | crates/idaptik-core/src/package.rs:167-258 | The reason given for a refusal is true of the package |
| `Package.FirstPass` | crates/idaptik-core/src/package.rs:381-404 | Executes every tick once, appraises every ping, and saves snapshot, held set and event count exactly when the snapshot tick lies in the run |
| `Package.Replay` | crates/idaptik-core/src/package.rs:407-417 | From the restored state and the saved held set the tail is exactly the first pass's |

## Left out

* The simulation itself, its state and the signal network: abstract, with `Faithful` as the only assumption.
* Sockets, JSON, wire sequence numbers, the relay's duplicate rule and refused pushes: the relay is an ordered queue
  per direction that delivers to current members only and keeps no history, as the comments say.
* Clocks: grace periods, join timeouts and the rejoin window are the actions `Silence`, `Die` and the absence of
  further moves. A timeout that ends a run ends the modelled run too.
* The fresh-seat barrier of the live driver (the batch session's barrier is modelled).
* The digest exchange after a run, deaths on purpose, the quit path, rendering and frame callbacks.
* A seat with no script or a live feed is any function from ticks to commands; `ScriptFeed` is the scripted one.
* The batch session without connection failures only: what a seat reports after losing its peer is not modelled.
* Floating point: the mole and the wall dressing use exact reals, so rounding is not captured. The hunger field, the
  coprocessor ladders and the seeded random stream are functions of the definition.
* The mole's `emit` and mutable-state escape hatches, its rendering, collision and save formats.
* PowerCascade.Floor.ApplyEffects: whether the player stands in the laundry is a flag of the state, and how a door's
  node id is made from its name is a function of the plan.
* AgentSession: addresses, name resolution, segments and the access decision are functions of the graph; the pivot
  count is not wrapped to 32 bits.
* Backdrop: the choice of theme and the string hash that seeds a layout; the seed is any number.
* Package.Load: the scenario's own validator is a list of faults, and JSON parsing comes before the model.
* Package.RunPackage: the fields of the result that copy the envelope (format, ids, seed, what was accepted).
* Network.NetworkGraph: zones, ranges and device attributes.
