# Verified models of the duel-round services

The repository runs duel rounds with small services that coordinate parties which can fail:
a casual queue, a warm pool of game servers, an attack cycle shared by three threads, a crash
symbolizer that unwinds x64 stacks, an entry relay, a pipe bridge, a provisioner and a chat
announcer. This project models their cores in Dafny and proves what they promise.

Each service appears twice. A `...Model` module defines its state and operations as values and
total functions; what outside parties answer is given by an oracle (one answer per call number),
and theorems hold for every oracle. A class or a set of methods has the form of the code, fields
updated in place and loops with invariants, and each method is proved to compute the function of
the same name. Theorems about whole runs are proved on the values and so hold of the objects.

| service | model | proofs | objects and loops |
|---|---|---|---|
| casual queue | `QueueModel`, `QueueFlowModel` | `QueueInvariants`, `QueueRuns`, `QueueTheorems`, `QueuePromises`, `QueueExact` | `QueueCore`, `QueueFlow` |
| warm pool | `ParkedModel` | `ParkedSafety`, `ParkedPromises`, `ParkedConverge` | `ParkedPool` |
| x64 unwinder | `UnwindModel`, `UnwindMachine` | `UnwindCodec`, `UnwindTheorems`, `UnwindMoved`, `UnwindChain` | `Unwind` |
| attack cycle | `AttackModel` | `AttackPurchases`, `AttackTimers`, `AttackEpochs`, `AttackRuns` | `AttackCycle` |
| relay | in `RelayJson`, `RelayEndpoint`, `RelayClaim` | same modules, `RelayBudget` | same modules |
| pipe bridge | `BridgePipe`, `ReadyGate` | same modules, `StartChain` (with the attack cycle) | `PipeBridge`, `ReadyTable` |
| provisioner | `ProvisionerModel` | `ProvisionerPromises`, `ProvisionerExact` | `Provisioner` |
| chat announcer | `AnnouncerModel` | `AnnouncerPromises` | `Announcer` |

`dafny verify dfyconfig.toml` checks everything.

## Where the code and its descriptions part

- A rematch rebinds players without asking whether they are free. The rule "one queue slot or one
  active match" survives exactly when they are (`QueueInvariants.CreateRematchKeepsBound`); when it
  is broken a restart can show (`QueueExact.RestartCanShow`; exactly when:
  `QueueTheorems.RestartUnobservableIff`).
- A failed match is not terminal: reconcile finishes it.
- After a restart of the warm pool a game in progress is protected but can no longer be ended
  through the service (`ParkedPromises.ForgottenForEver`). A warm-up answered without ports leaves
  its entry WARMING, a failed recycle leaves RECYCLING.
- The unwinder measures save offsets from the current RSP, the ABI ("x64 exception handling",
  struct UNWIND_CODE) from the frame base; `UnwindMoved.MovedStackIff` says when that is harmless.
  The parser accepts a last operand that overruns the announced slots. Return addresses are looked
  up as they are, so a call that is the last instruction of its function resolves to the next one;
  the chain theorem assumes that each address lies in the function that made the call.
- Orders placed while the cycle is paused are discarded by the start of the round; an order being
  paid meanwhile lands in the new round. A start signal seen outside PAUSED is used up without
  effect.
- After a timeout on the pipe a late reply is taken for the reply to the next command of its kind
  (`BridgePipe.LateReplyMistaken`); `BridgePipe.RepliesMatch` gives the exact condition. A bridge
  that restarts counts its start epoch anew, and an old epoch can then begin a second round
  (`AttackEpochs.FallenEpochAgain`).
- The ready gate holds sixteen ids, so more players never start by `/ready`; it fires only when an
  id is added, not when the player count becomes known.
- A provisioner rollback deletes staged files that an earlier instance left behind and removes a
  root directory that existed empty (`ProvisionerExact.FreshRestoredIff`, `LeftoverLost`,
  `BareRootLost`, `StrippedRootLost`); an error in the final status report is not rolled back; a
  persona mode in a VS world is never startable.
- The announcer reports one natural wave for an attack that had none.

## Model

| member | source | states |
|---|---|---|
| `QueueCore.QueueCore.Enqueue` | deploy/queue/queue_core.py:230-272 | joins the line once per identity: an empty name, a wrong size and a playing player are refused in that order, a waiting player gets the old entry back, and in all these cases nothing changes |
| `QueueCore.QueueCore.Leave` | deploy/queue/queue_core.py:274-289 | takes exactly the caller's entry out, or refuses and changes nothing |
| `QueueCore.QueueCore.BuildTeams` | deploy/queue/queue_core.py:306-327 | the teams are consecutive slices of the paired entries |
| `QueueCore.QueueCore.Pair` | deploy/queue/queue_core.py:299-334 | takes the oldest entries, enough for one match, into a new provisioning match, or does nothing |
| `QueueCore.QueueCore.CreateRematch` | deploy/queue/queue_core.py:384-414 | a new match with the same teams; its players are rebound whatever they are doing |
| `QueueCore.QueueCore.SetAssignment` | deploy/queue/queue_core.py:369-382 | records the instance and endpoint of one player |
| `QueueCore.QueueCore.MarkReady` | deploy/queue/queue_core.py:416-419 | provisioning becomes ready, the rest stays |
| `QueueCore.QueueCore.ReleaseIdentities` | deploy/queue/queue_core.py:421-431 | frees exactly the players still bound to this match |
| `QueueCore.QueueCore.MarkFailed` | deploy/queue/queue_core.py:433-438 | failed with the reason, players freed |
| `QueueCore.QueueCore.Finish` | deploy/queue/queue_core.py:440-459 | finished from any state (a failed match too), first result kept, players freed |
| `QueueCore.QueueCore.FindLatest` | deploy/queue/queue_core.py:349-361 | the newest match of a player |
| `QueueCore.QueueCore.Load` | deploy/queue/queue_core.py:520-569 | rebuilds queue, matches and both index maps from the saved lists |
| `QueueInvariants.EnqueueKeeps` | deploy/queue/queue_core.py:230-272 | sequence numbers stay strictly increasing along the queue, no identity waits twice, the index mirrors the queue |
| `QueueInvariants.LeaveKeeps` | deploy/queue/queue_core.py:274-289 | leaving keeps all that |
| `QueueInvariants.PairTeams` | deploy/queue/queue_core.py:299-334 | the players of a new match are exactly the oldest entries, in order |
| `QueueInvariants.CreateRematchKeepsBound` | deploy/queue/queue_core.py:408-413 | "one queue slot or one active match" survives a rematch if and only if all its players were free |
| `QueueInvariants.FinishMatchEffect` | deploy/queue/queue_core.py:440-459 | only the stage and a missing result of that one match change |
| `QueueInvariants.MarkFailedEffect` | deploy/queue/queue_core.py:433-438 | only the stage and detail of that one match change |
| `QueueFlow.QueueCoordinator.Persist` | deploy/queue/queue_flow.py:270-287 | the file is the memory |
| `QueueFlow.QueueCoordinator.Restart` | deploy/queue/queue_flow.py:249-268 | a new process knows what the file says |
| `QueueFlow.QueueCoordinator.Join` | deploy/queue/queue_flow.py:369-394 | join, pair when full, provision; equals the specified operation for every answer of the neighbours |
| `QueueFlow.QueueCoordinator.Leave` | deploy/queue/queue_flow.py:396-401 | equals the specified operation |
| `QueueFlow.QueueCoordinator.StartTeams` | deploy/queue/queue_flow.py:410-423 | worlds started team by team until one is refused; every success recorded on its players |
| `QueueFlow.QueueCoordinator.TryProvision` | deploy/queue/queue_flow.py:409-433 | starts, lobbies, readies, up to the first failure |
| `QueueFlow.QueueCoordinator.Rollback` | deploy/queue/queue_flow.py:434-441 | every started world is asked to stop, failures ignored |
| `QueueFlow.QueueCoordinator.Provision` | deploy/queue/queue_flow.py:405-445 | ready if all went well, otherwise rolled back and failed, persisted either way |
| `QueueFlow.QueueCoordinator.Finish` | deploy/queue/queue_flow.py:463-487 | finish first, clean up once, remember the cleanup only if it succeeded |
| `QueueFlow.QueueCoordinator.Cleanup` | deploy/queue/queue_flow.py:489-504 | stops the recorded worlds player by player until one stop fails |
| `QueueFlow.QueueCoordinator.Resolve` | deploy/queue/queue_flow.py:353-367 | which match a rematch request means |
| `QueueFlow.QueueCoordinator.Rematch` | deploy/queue/queue_flow.py:289-351 | equals the specified operation: idempotent answer, cleanup of the source, new match, referee, worlds, anchor |
| `QueueFlow.QueueCoordinator.Serve` | deploy/queue/queue_flow.py:289-616 | any request: the object does what the model says and keeps every invariant of the runs |
| `QueueFlow.QueueCoordinator.Reconcile` | deploy/queue/queue_flow.py:536-616 | pending cleanups are retried, then what the referee reports finished is finished |
| `QueueRuns.FailedProvisionUndone` | deploy/queue/queue_flow.py:424-445 | a failed provisioning whose stops take effect leaves running exactly what ran before |
| `QueueRuns.JoinKeeps` | deploy/queue/queue_flow.py:369-394 | a join keeps every invariant, whatever fails |
| `QueueRuns.FinishKeeps` | deploy/queue/queue_flow.py:463-504 | so does a finish |
| `QueueRuns.FinishEffect` | deploy/queue/queue_flow.py:463-487 | a finish changes at most this match and worlds only go away; success leaves the match finished and recorded as cleaned |
| `QueueRuns.FinishStopsWorlds` | deploy/queue/queue_flow.py:463-504 | a finish that succeeds leaves running exactly the worlds of other matches; a failed one stops none of theirs |
| `QueueTheorems.RematchKeeps` | deploy/queue/queue_flow.py:289-351 | a repeated request changes nothing and names the known match; a new one anchors a fresh match or leaves the source eligible |
| `QueueTheorems.ReconcileKeeps` | deploy/queue/queue_flow.py:536-616 | reconcile keeps every invariant |
| `QueueTheorems.RunKeeps` | deploy/queue/queue_flow.py:289-616 | in every run: no orphan worlds, no zombie ever started, queue shorter than one match, memory equals the file |
| `QueueTheorems.DisciplinedRunKeeps` | deploy/queue/queue_core.py:230-459 | in every run whose new rematches find their players free (repeated and refused requests are unrestricted): each identity in at most one slot or one active match, both index maps exact, restart invisible |
| `QueueTheorems.RestartUnobservable` | deploy/queue/queue_core.py:485-569 | loading what was saved gives back the very same state |
| `QueueTheorems.RestartUnobservableIff` | deploy/queue/queue_core.py:520-569 | the exact condition, for every reachable state: the identity index names everybody's newest active match |
| `QueueExact.RematchGuardExact` | deploy/queue/queue_flow.py:302-336 | the guard of such a rematch is the weakest: whatever the neighbours answer the rule survives, if and only if the request makes no new match or finds its players free |
| `QueueExact.RematchThenFinishForgets` | deploy/queue/queue_core.py:384-459 | a rematch of somebody who plays elsewhere, then finished: the index has lost the player and a restart shows |
| `QueueExact.RestartCanShow` | deploy/queue/queue_core.py:520-569 | a concrete run from the first start to such a state |
| `QueuePromises.NoOrphansNoZombies` | deploy/queue/queue_flow.py:405-504 | from a fresh start, every running world is a recorded side of a match still owing its cleanup; no world of a rematch was started while one of its source ran |
| `QueuePromises.TickLeavesOnlyActive` | deploy/queue/queue_flow.py:536-616 | after a reconcile whose stops succeed only worlds of matches in progress run |
| `QueuePromises.RematchAtMostOnce` | deploy/queue/queue_flow.py:289-351 | in every run a source gets at most one rematch, and its anchor never changes |
| `QueuePromises.RematchRepeated` | deploy/queue/queue_flow.py:302-321 | after a success every later request answers the same and starts nothing; after a failure the source is as eligible as before |
| `QueuePromises.LatestMatchIsLatest` | deploy/queue/queue_core.py:349-361 | the match found is the player's with the highest number |
| `QueuePromises.MatchedJoinHasCaller` | deploy/queue/queue_flow.py:369-394 | a "matched" answer names a match its caller plays in |
| `QueuePromises.LineAfter` | deploy/queue/queue_core.py:299-334 | each operation takes the whole line into a match, or only loses entries and appends one |
| `QueuePromises.NobodyOvertaken` | deploy/queue/queue_core.py:299-334 | over any run entries are paired strictly in the order in which they came |
| `QueuePromises.RematchOfWaitingPlayer` | deploy/queue/queue_core.py:408-413 | concrete state where a rematch gives a player a slot and a match at once |
| `QueuePromises.InstanceNamesDiffer` | deploy/queue/queue_flow.py:52-58 | different matches or worlds have different instance names |
| `ParkedPool.ParkedPool.WarmUp` | deploy/parked/parked_pool.py:408-459 | equals the specified operation, with the states its three failure paths leave behind |
| `ParkedPool.ParkedPool.Claim` | deploy/parked/parked_pool.py:461-515 | equals the specified operation; the marker is written with the handover |
| `ParkedPool.ParkedPool.Require` | deploy/parked/parked_pool.py:392-405 | which instance is meant and whether it is in the state required |
| `ParkedPool.ParkedPool.Recycle` | deploy/parked/parked_pool.py:517-554 | equals the specified operation; a failed bridge call or stop leaves RECYCLING |
| `ParkedPool.ParkedPool.Reap` | deploy/parked/parked_pool.py:556-586 | one pass over a snapshot; a failed stop does not end it |
| `ParkedPool.ParkedPool.Group` | deploy/parked/parked_pool.py:715-743 | the discovered instances in order of appearance, each running if any of its containers is, foreign rows counted |
| `ParkedPool.ParkedPool.ReconcileOne` | deploy/parked/parked_pool.py:745-771 | marked: kept; untracked or stopped: removed; tracked but down: evicted and removed |
| `ParkedPool.ParkedPool.Reconcile` | deploy/parked/parked_pool.py:672-788 | equals the specified pass, including the failed discovery |
| `ParkedPool.ParkedController.NextId` | deploy/parked/parked_service.py:275-295 | the search ends, with the first number whose id is neither tracked nor claimed |
| `ParkedPool.ParkedController.Fill` | deploy/parked/parked_service.py:297-326 | warms up until the pool is full, the first failure, or not at all behind the gate or the backoff |
| `ParkedPool.ParkedController.MaintainOnce` | deploy/parked/parked_service.py:390-402 | reconcile when due, fill, reap when due |
| `ParkedPool.ParkedController.OldestParked` | deploy/parked/parked_service.py:405-414 | the first of the longest parked |
| `ParkedPool.ParkedController.Claim` | deploy/parked/parked_service.py:416-444 | a claim by id, or of the longest parked |
| `ParkedPool.ParkedController.Recycle` | deploy/parked/parked_service.py:453-470 | equals the specified operation |
| `ParkedPool.ParkedController.Serve` | deploy/parked/parked_service.py:334-482 | any request: the controller does what the model says and keeps every game protected |
| `ParkedPromises.WarmUpAddsOne` | deploy/parked/parked_service.py:315-326 | a successful warm-up of a fresh id adds exactly one parked instance, so the fill loop ends |
| `ParkedSafety.NextIndexIsFresh` | deploy/parked/parked_service.py:291-295 | the number found is the least above the counter that is free |
| `ParkedSafety.MarkerNamesDiffer` | deploy/parked/parked_pool.py:245-252 | issued instances never share a marker file |
| `ParkedSafety.WarmUpKeeps` | deploy/parked/parked_pool.py:408-459 | warming up an unclaimed id keeps every game protected |
| `ParkedSafety.ClaimKeeps` | deploy/parked/parked_pool.py:461-515 | a claim hands over an instance that was in no game and marks it |
| `ParkedSafety.RecycleKeeps` | deploy/parked/parked_pool.py:517-554 | a recycle ends exactly the game it was asked to end, or none |
| `ParkedSafety.ReapAllKeeps` | deploy/parked/parked_pool.py:556-586 | reaping touches no game |
| `ParkedSafety.ReconcileKeeps` | deploy/parked/parked_pool.py:672-788 | reconcile touches no game and no marker |
| `ParkedSafety.MaintainKeeps` | deploy/parked/parked_service.py:390-402 | neither does a maintenance pass |
| `ParkedSafety.ApplyKeeps` | deploy/parked/parked_pool.py:408-788 | every step, restart included, keeps: each game has its marker, nothing parked is marked, the provisioner's history is harmless |
| `ParkedPromises.LiveClaimNeverKilled` | deploy/parked/parked_pool.py:254-316 | in every run with restarts anywhere, no start names an instance in a game and a stop names one only as the cold recycle ending that game |
| `ParkedPromises.ForgottenForEver` | deploy/parked/parked_pool.py:392-405 | a game in progress at a restart stays marked and untracked for ever, so no recycle can end it |
| `ParkedPromises.GateStaysClosed` | deploy/parked/parked_service.py:297-312 | after a failed discovery nothing is started until a reconcile succeeds or the service restarts, and a failed pass changes nothing |
| `ParkedPromises.OldestIsOldest` | deploy/parked/parked_service.py:405-414 | a claim without id is offered an instance parked longest |
| `ParkedConverge.ReconcileEffect` | deploy/parked/parked_pool.py:715-788 | what one successful discovery leaves of the entries and which instances it removes, read off the state before |
| `ParkedConverge.OneRunSuffices` | deploy/parked/parked_pool.py:745-771 | after one run whose stops succeed everything left is marked, or tracked, not stopped and running |
| `ParkedConverge.SecondStopsNothingThirdChangesNothing` | deploy/parked/parked_pool.py:672-788 | a second run makes no call and stops nothing, a third changes nothing |
| `ParkedConverge.ForeignUntouched` | deploy/parked/parked_pool.py:718-724 | calls and evictions concern the own environment only |
| `Unwind.RvaToOff` | deploy/crash-collector/symbolize.py:286-291 | file offset of an address: the first section that covers it |
| `Unwind.ParseCodes` | deploy/crash-collector/symbolize.py:376-432 | the cursor loop yields the specified codes and position, or None, and never reads outside the buffer |
| `Unwind.ParseUnwindInfo` | deploy/crash-collector/symbolize.py:362-444 | header, codes, padding and chain as specified |
| `Unwind.ApplyUnwind` | deploy/crash-collector/symbolize.py:447-483 | the interpreter loop equals the specified one, including where it gives up |
| `Unwind.FollowChain` | deploy/crash-collector/symbolize.py:518-526 | follows at most four chained entries |
| `Unwind.Resolve` | deploy/crash-collector/symbolize.py:505-530 | module, function, unwind block and prolog offset of an address |
| `Unwind.OneFrame` | deploy/crash-collector/symbolize.py:502-539 | one round of the frame loop |
| `Unwind.X64Unwind` | deploy/crash-collector/symbolize.py:486-539 | the frame loop, at most max_frames addresses |
| `UnwindCodec.OneInverts` | deploy/crash-collector/symbolize.py:383-431 | a code written by the book is read back, operand scaled |
| `UnwindCodec.CodesInvert` | deploy/crash-collector/symbolize.py:376-432 | a list of codes is read back and exactly its slots are consumed |
| `UnwindCodec.CodesRead` | deploy/crash-collector/symbolize.py:376-432 | whatever is accepted is the encoding of what is returned |
| `UnwindCodec.ParseInvertsEncode` | deploy/crash-collector/symbolize.py:362-444 | every block written by the book in a mapped section is read back exactly, padding consumed, chained entry found where flagged |
| `UnwindCodec.ParseReads` | deploy/crash-collector/symbolize.py:362-444 | conversely, accepted bytes encode the result, except that the last operand may overrun the count by at most two slots |
| `UnwindCodec.OverrunAccepted` | deploy/crash-collector/symbolize.py:379-432 | a concrete block with such an overrun |
| `UnwindMachine.ReadBack` | deploy/crash-collector/symbolize.py:461-465 | a word is read back from any memory that kept its bytes |
| `UnwindTheorems.UndoAll` | deploy/crash-collector/symbolize.py:458-483 | run backwards over an intact stack the codes lead to the entry RSP and registers; they give up only for want of the frame register |
| `UnwindTheorems.CutApplies` | deploy/crash-collector/symbolize.py:458-460 | skipping codes beyond the offset is running only the instructions that had been executed |
| `UnwindTheorems.CutIsSuffix` | deploy/crash-collector/symbolize.py:450-452 | in descending order those are a suffix of the array |
| `UnwindTheorems.UnwindUndoesProlog` | deploy/crash-collector/symbolize.py:447-483 | for every prolog and every cut inside it, unwinding restores RSP and every known or saved register |
| `UnwindTheorems.UndoMoved` | deploy/crash-collector/symbolize.py:468-476 | from any RSP: right except for registers read from the moved stack and not read again |
| `UnwindMoved.MovedStackIff` | deploy/crash-collector/symbolize.py:468-476 | right wherever the body moved RSP if and only if nothing needed was saved after the frame register was set |
| `UnwindChain.StepFindsCaller` | deploy/crash-collector/symbolize.py:502-539 | one step from a function that kept to the ABI finds its caller, or nothing |
| `UnwindChain.WalkFindsCallers` | deploy/crash-collector/symbolize.py:486-539 | whatever is reported is a prefix of the true chain of callers; all of it up to the limit if the frame registers in use are known |
| `UnwindChain.UnwindRecoversCallChain` | deploy/crash-collector/symbolize.py:495-539 | with RBP as the only frame register the output is the chain of callers cut at max_frames |
| `AttackCycle.AttackCycle.Buy` | deploy/attack-cycle/attack_cycle.py:784-798 | a known wave is queued at once, an unknown one refused with 400 |
| `AttackCycle.AttackCycle.ResolveOrders` | deploy/attack-cycle/attack_cycle.py:800-834 | copies and empties the orders, then pays one by one; paid ones are appended to the bought queue |
| `AttackCycle.AttackCycle.ClearRound` | deploy/attack-cycle/attack_cycle.py:655-669 | queues, counters and timers cleared |
| `AttackCycle.AttackCycle.SignalStart` | deploy/attack-cycle/attack_cycle.py:679-697 | PAUSED to WARMUP, from nowhere else |
| `AttackCycle.AttackCycle.Reset` | deploy/attack-cycle/attack_cycle.py:1243-1253 | to PAUSED from anywhere |
| `AttackCycle.AttackCycle.NoteStartSignal` | deploy/attack-cycle/attack_cycle.py:1347-1360 | a new positive epoch, or a sticky flag |
| `AttackCycle.AttackCycle.SyncStart` | deploy/attack-cycle/attack_cycle.py:1362-1381 | the signal is consumed whether or not it has an effect |
| `AttackCycle.AttackCycle.RaiseDifficulty` | deploy/attack-cycle/attack_cycle.py:974-982 | the escalation loop |
| `AttackCycle.AttackCycle.TakeEvent` | deploy/attack-cycle/attack_cycle.py:992-1000 | the event's critical section |
| `AttackCycle.AttackCycle.TakeAttack` | deploy/attack-cycle/attack_cycle.py:1014-1029 | bought queue taken over and next attack scheduled together |
| `AttackCycle.AttackCycle.SendOwn` | deploy/attack-cycle/attack_cycle.py:1041-1051 | own waves fired one by one, or only tracked |
| `AttackCycle.AttackCycle.SendEnemy` | deploy/attack-cycle/attack_cycle.py:1056-1077 | counted, and posted to the referee wave by wave |
| `AttackCycle.AttackCycle.Step` | deploy/attack-cycle/attack_cycle.py:912-1102 | one uninterrupted poll |
| `AttackRuns.StepIsRun` | deploy/attack-cycle/attack_cycle.py:912-1102 | an uninterrupted step is a run of the interleaving model |
| `AttackRuns.ResolveIsRun` | deploy/attack-cycle/attack_cycle.py:800-834 | so is a resolver pass |
| `AttackPurchases.ApplyKeeps` | deploy/attack-cycle/attack_cycle.py:784-1102 | every transition of every thread keeps the purchase invariants |
| `AttackPurchases.PurchasesConserved` | deploy/attack-cycle/attack_cycle.py:800-834 | in every interleaving: paid = fired + tracked + cleared + taken + bought + on the way, in the order paid; carbonium is the sum of the prices; no own wave is fired unpaid or twice |
| `AttackPurchases.OrdersAccountedFor` | deploy/attack-cycle/attack_cycle.py:784-834 | every accepted order is paid, refused, discarded by a new round, or open |
| `AttackPurchases.EnemyPostedOnce` | deploy/attack-cycle/attack_cycle.py:1056-1077 | each wave sent to the enemy is posted to the referee once, in order |
| `AttackTimers.EscalateFollows` | deploy/attack-cycle/attack_cycle.py:974-982 | the loop reaches the level the schedule prescribes and keeps its deadline on the schedule |
| `AttackTimers.LevelIndependentOfPolls` | deploy/attack-cycle/attack_cycle.py:905-909 | level is a function of the time alone, however polls were spaced, and stays in 1..max |
| `AttackTimers.AttacksNeverDrift` | deploy/attack-cycle/attack_cycle.py:940-950 | attack n is due n intervals after the start, never early; its waves are those of the scheduled level |
| `AttackTimers.AtMostOneAttackPerStep` | deploy/attack-cycle/attack_cycle.py:1014-1021 | no more attacks than polls |
| `AttackTimers.AttackCountIsExact` | deploy/attack-cycle/attack_cycle.py:1014-1021 | with polls less than an interval apart the count is exact |
| `AttackTimers.UnreadableIsNotDead` | deploy/attack-cycle/attack_cycle.py:960-972 | only a confirmed dead or missing HQ ends a round |
| `AttackTimers.GameOverIsFinal` | deploy/attack-cycle/attack_cycle.py:671-677 | game over is final until a reset |
| `AttackEpochs.RoundsFollowEdges` | deploy/attack-cycle/attack_cycle.py:1347-1381 | when epochs are the only start source, the rounds begun are some of the epoch changes polled, in their order |
| `AttackEpochs.OneRoundPerEpochIff` | deploy/attack-cycle/attack_cycle.py:1347-1381 | for every sequence of polled epochs: PAUSED is left at most once per positive epoch in every run if and only if no epoch is changed to twice |
| `AttackEpochs.OneRoundPerEpoch` | deploy/attack-cycle/attack_cycle.py:1347-1381 | so it is for epochs that never fall |
| `AttackEpochs.FallenEpochAgain` | deploy/attack-cycle/attack_cycle.py:1347-1381 | and not for a bridge that starts counting anew: concrete epochs |
| `RelayJson.JsonEscape` | tools/gns-proxy/api_util.h:329-351 | the escape loop equals the specified text |
| `RelayJson.JsonStringField` | tools/gns-proxy/api_util.h:35-110 | the reader's loops equal the specified reading |
| `RelayJson.ReadValue` | tools/gns-proxy/api_util.h:54-109 | the value loop, up to the first quote that is not escaped |
| `RelayJson.RoundTrip` | tools/gns-proxy/api_util.h:329-351 | for every byte string the reader gives back what was escaped, and stops at its closing quote |
| `RelayJson.NoEarlyMatch` | tools/gns-proxy/api_util.h:35-41 | inside an escaped text no key can be matched except by ending at its closing quote |
| `RelayJson.ClaimBodyReadsBack` | tools/gns-proxy/api_util.h:687-704 | both fields read back for every env and mode, absent ones reported absent, even where a text equals or ends in a key name |
| `RelayEndpoint.ReadEndpoint` | tools/gns-proxy/route_rules.h:36-91 | the endpoint reader's loops equal the specified parse |
| `RelayEndpoint.ParsesExactly` | tools/gns-proxy/route_rules.h:36-91 | accepted exactly: four octets up to 255 and a port 1 to 65535 |
| `RelayEndpoint.WrittenReadsBack` | tools/gns-proxy/route_rules.h:36-91 | a parsed endpoint written out parses to itself |
| `RelayClaim.RetryDelayMs` | tools/gns-proxy/api_util.h:319-325 | 250, 500, 1000 and no more |
| `RelayClaim.RunSoloClaim` | tools/gns-proxy/api_util.h:677-788 | the retry loop equals the specified log and outcome, and sends the specified body |
| `RelayClaim.Attempt` | tools/gns-proxy/api_util.h:723-756 | one round of the loop |
| `RelayClaim.Verdict` | tools/gns-proxy/api_util.h:767-788 | how a failure is reported |
| `RelayBudget.LoopLogs` | tools/gns-proxy/api_util.h:717-757 | attempts follow each other gaplessly, each within its budget, all but the last transient failures |
| `RelayBudget.WithinBudget` | tools/gns-proxy/api_util.h:717-757 | total time at most totalMs for every backend that keeps its timeouts |
| `RelayBudget.AtMostSixAttempts` | tools/gns-proxy/api_util.h:650-655 | with the default budget at most six attempts, however fast they fail |
| `RelayBudget.AnswersMean` | tools/gns-proxy/api_util.h:759-788 | 200 exactly when the last attempt carried a parseable endpoint, which is returned; 503 exactly for transient failures only; 409 kept; else 502 |
| `PipeBridge.PipeBridge.ArmSlot` | server/pipe-bridge/pipe_bridge.c:943-956 | expectation set and event reset in one critical section, or -1 without a pipe |
| `PipeBridge.PipeBridge.TakeLine` | server/pipe-bridge/pipe_bridge.c:966-981 | the line in the slot, lock released |
| `PipeBridge.PipeBridge.RoutePipeLine` | server/pipe-bridge/pipe_bridge.c:830-838 | to the waiter if it expects this event and has nothing yet, else dropped |
| `BridgePipe.ApplyKeeps` | server/pipe-bridge/pipe_bridge.c:793-982 | every interleaved step keeps the slot invariant |
| `BridgePipe.RepliesMatch` | server/pipe-bridge/pipe_bridge.c:929-982 | a returned line carries the event asked for; with a game that answers in turn it is the own reply if and only if no command with that event was unanswered when the slot was armed |
| `BridgePipe.StaleWasGivenUp` | server/pipe-bridge/pipe_bridge.c:964-969 | what is in the way of a command has returned before it, and nothing is unless one with its event timed out |
| `BridgePipe.OwnReplyUnlessTimedOut` | server/pipe-bridge/pipe_bridge.c:929-982 | in every interleaving, with unanswered commands and broken pipes too: unless an earlier command with the event timed out, the line returned is the own reply |
| `BridgePipe.LateReplyMistaken` | server/pipe-bridge/pipe_bridge.c:948-969 | a concrete run in which a late reply is taken for the next command's |
| `BridgePipe.RoutedIsReturned` | server/pipe-bridge/pipe_bridge.c:964-981 | a reply routed before the timeout is returned |
| `BridgePipe.WokenHasLine` | server/pipe-bridge/pipe_bridge.c:971-976 | the second check of the slot never fails |
| `BridgePipe.ReaderIgnoresCommandLock` | server/pipe-bridge/pipe_bridge.c:661-671 | frame of the next row: the reader's steps depend in no way on the holder of the command lock |
| `BridgePipe.OwnReplyArrives` | server/pipe-bridge/pipe_bridge.c:793-839 | the waiter has its reply once the reader has routed the lines up to it, whatever other threads, pushes and chat lines do in between |
| `ReadyTable.ReadyTable.Find` | server/pipe-bridge/ready_gate.h:56-67 | the first slot with that id |
| `ReadyTable.ReadyTable.Add` | server/pipe-bridge/ready_gate.h:69-80 | stored cut to 47 characters, unless present, empty or full |
| `ReadyTable.ReadyTable.Remove` | server/pipe-bridge/ready_gate.h:83-95 | removed with later ids moved up |
| `ReadyTable.ReadyTable.OnChat` | server/pipe-bridge/pipe_bridge.c:706-741 | the critical section of a /ready line |
| `ReadyTable.ReadyTable.Tick` | server/pipe-bridge/pipe_bridge.c:768-777 | emptied once the deadline has passed |
| `ReadyTable.ReadyTable.Reset` | server/pipe-bridge/ready_gate.h:131-139 | set, deadline and latches cleared, player count kept |
| `ReadyGate.OncePerRound` | server/pipe-bridge/pipe_bridge.c:706-790 | ids distinct and at most sixteen; one fire between resets, with enough distinct ready players; the epoch counts fires and start requests |
| `StartChain.RoundsHaveCauses` | server/pipe-bridge/pipe_bridge.c:734-752 | gate, bridge and cycle together: each round has an epoch of its own that the bridge had reached, so rounds never outnumber complete ready gates and start requests |
| `ReadyGate.YoungAfterTick` | server/pipe-bridge/ready_gate.h:145-165 | after a tick a nonempty unfired gate is younger than its timeout |
| `ReadyGate.TimeoutStartsNothing` | server/pipe-bridge/pipe_bridge.c:764-790 | a gate is emptied exactly when overdue, and nothing starts |
| `ReadyGate.TooManyNeverFire` | server/pipe-bridge/ready_gate.h:69-80 | more than sixteen players can never all be ready |
| `ReadyGate.AnonymousIsOne` | server/pipe-bridge/pipe_bridge.c:714-719 | without connection ids everybody counts as one |
| `ReadyGate.AddIdempotentIff` | server/pipe-bridge/ready_gate.h:69-80 | the table alone stores an id twice exactly if it is longer than 47 characters |
| `Provisioner.Provisioner.CreateDirs` | deploy/provisioner/provisioner.py:1289-1293 | only missing directories are made and recorded |
| `Provisioner.Provisioner.CreateVolumes` | deploy/provisioner/provisioner.py:1300-1304 | only missing volumes are made and recorded |
| `Provisioner.Provisioner.CreateSidecars` | deploy/provisioner/provisioner.py:1483-1491 | one after the other until one fails |
| `Provisioner.Provisioner.Build` | deploy/provisioner/provisioner.py:906-921 | the steps of the transaction in order up to the first failure |
| `Provisioner.Provisioner.Launch` | deploy/provisioner/provisioner.py:912-921 | container, health, seeding, then sidecars |
| `Provisioner.Provisioner.Rollback` | deploy/provisioner/provisioner.py:1614-1656 | everything recorded as created is removed, then an empty root |
| `Provisioner.Provisioner.EnsureSidecars` | deploy/provisioner/provisioner.py:1493-1553 | running left alone, stopped woken, missing rebuilt |
| `Provisioner.Provisioner.Start` | deploy/provisioner/provisioner.py:837-939 | equals the specified operation on both paths |
| `Provisioner.Provisioner.Stop` | deploy/provisioner/provisioner.py:941-989 | equals the specified removal |
| `ProvisionerPromises.BuildMade` | deploy/provisioner/provisioner.py:906-921 | at every failure point what was made is what was recorded |
| `ProvisionerPromises.RollbackExact` | deploy/provisioner/provisioner.py:1614-1656 | the exact effect of a rollback at every point |
| `ProvisionerPromises.FreshAllOrNothing` | deploy/provisioner/provisioner.py:837-939 | for one run: what a failed fresh start restores, and that it is everything if and only if nothing the run had staged was there before and the root was not an empty directory |
| `ProvisionerExact.FreshRestoredIff` | deploy/provisioner/provisioner.py:837-939 | before the call: a fresh start restores the host wherever it is cut off if and only if no file of an earlier life stands where it stages one and the root is not an empty directory |
| `ProvisionerExact.LeftoverLost` | deploy/provisioner/provisioner.py:1635-1639 | a concrete host whose left-over configuration a failed start deletes |
| `ProvisionerExact.BareRootLost` | deploy/provisioner/provisioner.py:1652-1656 | a concrete host whose empty root directory a failed start removes |
| `ProvisionerExact.StrippedRootLost` | deploy/provisioner/provisioner.py:882-902 | the same on the existing path |
| `ProvisionerPromises.ExistingAllOrNothing` | deploy/provisioner/provisioner.py:850-902 | on the existing path all that was there is there again; stopped containers may have been woken |
| `ProvisionerPromises.FreshStartCompletes` | deploy/provisioner/provisioner.py:903-925 | a successful fresh start leaves the whole stack running in the mode and world asked for |
| `ProvisionerPromises.RepeatChangesNothing` | deploy/provisioner/provisioner.py:850-902 | a repeated start with the same mode and world changes nothing, whatever the calls answer |
| `ProvisionerPromises.StatusFailureKeepsEverything` | deploy/provisioner/provisioner.py:922-925 | an error in the final report, outside the try, leaves the complete stack |
| `ProvisionerPromises.StopRemovesAll` | deploy/provisioner/provisioner.py:941-989 | nothing of the instance is left, nothing else is touched |
| `ProvisionerPromises.StopUndoesStart` | deploy/provisioner/provisioner.py:941-989 | start then stop on a host that held nothing of the instance: as before |
| `ProvisionerPromises.SpecForOk` | deploy/provisioner/provisioner.py:477-503 | the names derived from environment and instance never collide |
| `Announcer.ResolveThreshold` | deploy/chat-announcer/announcer.py:149-164 | the largest newly crossed threshold; all crossed ones count as announced |
| `Announcer.CountIncoming` | deploy/chat-announcer/announcer.py:118-144 | the wave counts of the last attack |
| `Announcer.Announcer.Step` | deploy/chat-announcer/announcer.py:201-270 | one poll equals the specified decision |
| `AnnouncerModel.IncomingExact` | deploy/chat-announcer/announcer.py:118-144 | each wave counted once under its level, but a natural count of zero is announced as one |
| `AnnouncerPromises.RunningMinimum` | deploy/chat-announcer/announcer.py:149-260 | announced are exactly the thresholds at or above the least remaining time seen; what is said falls strictly; GO at most once per warmup |
| `AnnouncerPromises.OneThresholdPerPoll` | deploy/chat-announcer/announcer.py:149-164 | per poll and on both channels: nothing if no threshold is newly crossed, otherwise the largest newly crossed and no other |

## Left out

Queue
- Canonical identities: ids are taken as already canonical, because that module is a thin text filter.
- HTTP and JSON text, defaults for missing JSON fields, status views, file writes that fail: plumbing.
- A crash in the middle of an operation: state is saved at operation boundaries only.
- A start whose answer is lost is taken to have left nothing running (what the provisioner does on failure); a stop whose answer is lost may have taken effect or not.
- The order in which worlds are readied is that of the teams; the source sorts world names as text, which agrees up to ten teams.
- Upper-casing of result words covers ASCII only; clocks are integers throughout.
- QueueCore.QueueCore.SetAssignment: matches are values in the core's map, so sharing of one match object between callers is not captured.

Warm pool
- Handover seconds, counters, container and status labels, HTTP layer; one clock reading per operation; marker writes that fail.
- ParkedPromises.LiveClaimNeverKilled: for ids that fit the 64 characters of a marker name, which the counter reaches only after astronomically many instances.
- ParkedConverge.OneRunSuffices: discovery is one list per run; containers that appear between two runs are new input.

Unwinder
- UnwindTheorems.UnwindUndoesProlog: no machine frames and no chained blocks, for which the code adds 8 or 16 bytes or replaces the block, so that no inverse exists; addresses do not wrap at 2^64.
- Minidump streams, PE headers, the RBP fallback and symbol lookup: file formats without state.

Attack cycle
- AttackTimers.LevelIndependentOfPolls: interval and schedule are fixed; the two synchronisations that change them restart a countdown by design.
- The weighted choice of creature events, HTTP payloads, history and status views; natural rules and personas are constants of a run.
- AttackPurchases.PurchasesConserved: "paid" means confirmed by the bridge; a payment whose confirmation is lost counts as refused, as the code treats it.
- The defensive poll of POST /start (off by default).

Relay
- The outbound connection, clocks and sleeps: time passes only in claims and sleeps.
- Queue and capsule requests of the same file, which reuse the same readers.

Bridge
- Bytes on the pipe (partial lines, truncation at buffer ends), sessions, state cache, event stream, the other routes: wrappers around the slot modelled here.
- BridgePipe.RepliesMatch: not for `send_chat_result`, which the reader's own status lines also provoke; a Skip action stands for a command the game never answers.

Provisioner
- Failing calls have no effect, removals succeed, existence checks are truthful; image, port and disk checks and the persona file are one preflight answer; command-line texts are opaque.
- ProvisionerPromises.ExistingAllOrNothing: containers woken before a failure stay awake, as in the source.

Announcer
- Message texts; remaining times are integers.

Whole parts
- Capsule flow, versus pairing, match loop, mode gate, health logic: thinner machines over the same cores.
- The log tailers, which read an unfinished line twice: no line-exactness to prove.
