# Verified model of the gateway core

A Dafny model of the request engine and the MCP client manager of the gateway, with proofs
about every run of them. Check it with `dafny verify dfyconfig.toml`.

Four parts:

* **Provider queues** — `ProviderQueues` is a transition system in which any number of
  producers, workers, queue replacements, removals and sweeps interleave over bounded FIFO
  queues and pooled one-slot answer channels. Each case of a Go `select` is a step of its
  own. `QueueInvariants` states what every step keeps, `QueueMessages`, `QueueLifecycle`,
  `QueueHistory` and `QueueSafety` prove it, `QueueTheorems` reads off the guarantees.
  `QueueProgress` shows that nothing is lost before the last sweep, `QueueSweep` exactly when
  something is lost after it, and `QueueRace` is a run in which that happens. `QueueMoves`
  and `QueueAnswers` give exactly what callers, workers and handoffs may do in each place and
  what callers get; `QueueCompletion` and `QueueRemoval` show that updates and removals can
  always finish.
  `QueueTransfer` has the handoff and the sweep as loops over mutable queues.
* **Retries** — `RetryLoop` is the retry loop with its used and dead key sets, pool resets,
  attempt trail, strip attempt and backoff; `KeyPool` holds the two key providers and
  `Backoff` the 64-bit delay arithmetic.
* **MCP connections** — `ExclusiveOps` is the lock-free operation slot, `SlotRefinement` shows
  that the connection model takes it for what it is. `McpConnections` is
  the transition system of dials, commits, failures, teardown, removal and late writers;
  `McpSafety` and `McpTheorems` prove its invariants and guarantees, `McpStaleWrites` shows
  runs in which a late write outlives its client, `McpReturn` when a removed client comes back, `McpProgress` that no dial gets stuck, and `McpManager` has the locked regions
  as methods on shared entries, each proved to be one step of the transition system.
* **Loops over a simple specification** — `AgentLoop` and `Usage`, `FallbackChain`,
  `SessionStickiness`, `WeightedSelection`.

`Wrappers` and `Errors` hold the optional value and the error value they share.

Where the outside world answers (upstream providers, tool servers, hooks, the random source,
clocks), the model takes an arbitrary function, constrained only as the source relies on it:
the key filter keeps a sublist, the key selector picks from a nonempty list, parallel tool
results arrive in some order, a draw is below its bound.

## Findings

The code does not do the following, and the model states what it does instead.

* A producer that passed its last closing check before the flag was set may send after the
  last sweep; its message is then never taken. `StrandsIffSenders` gives the exact condition:
  a swept, empty queue can strand a waiting caller if and only if some producer is still in
  one of the two sends. Producers that found the queue full do not count, since they check the
  flag again. `QueueRace.StrandedMessageReachable` is a run with a worker that exits in between.
* The backoff product overflows 64 bits after enough retries: with the default delays the
  36th retry does not sleep. `BaseIsIdealIff` gives the exact condition.
* Disabling a client and rotating its credential do not raise the connection generation, so a
  check in flight still writes its tools; removing and re-adding a client restarts the
  counter, so a stale check may write to the new entry. `CheckReachesItsEntryIff` and
  `CheckReachesAnotherEntryIff` give the exact conditions, `LossReachesItsEntryIff` the one for
  the connection-lost callback.
* A removed client may come back without being added again, with a live connection:
  `RemovedClientComesBack`. By `ComesBackIffRead` it can, if and only if the holder of its slot
  has read its configuration and not yet dialled; by `ReadWhileInMap` that was while the client
  was still in the map.
* Merging two usages loses the cached-write breakdown and six other fields, contrary to a
  plain sum: `UncopiedSurviveIff`.
* A fallback that fails without an error field makes the request panic: `PanicsIff`, and
  `FieldlessPanics` at a concrete input. The gateway's own errors carry the field; a plugin's
  short-circuit error is returned as the plugin made it (core/bifrost.go:5711-5722), and so is
  an error replaced by a post-hook.
* Session stickiness fails to agree when the winning key has an empty ID: `AgreementIff`.

## Model

| member | source | states |
|---|---|---|
| `QueueSafety.StepKeeps` | core/bifrost.go:5734-5898 | every step of a producer, worker, handoff, sweep or lifecycle operation keeps the message, order, handoff and worker-accounting invariants |
| `QueueSafety.ReachableInv` | core/bifrost.go:120-181 | the invariants hold in every reachable state, whatever the interleaving |
| `QueueTheorems.MessageInOnePlace` | core/bifrost.go:5760-5898 | an unreleased message is with its producer, at one index of one queue, with one taker, or answered; never in two places, and in none only if a taker dropped it because the caller's context was done |
| `QueueTheorems.AnsweredAtMostOnce` | core/bifrost.go:7407-7490 | a request is answered at most once, terminal post-hooks run at most once, and the value a caller receives was sent for that caller |
| `QueueAnswers.WorkerAnswers` | core/bifrost.go:7407-7460 | a worker holding a message can answer on the error channel and, unless it is draining, on the result channel (the stream's if the request streams), and on no other |
| `QueueAnswers.OthersAnswerErrors` | core/bifrost.go:8704-8728 | sweepers, and handoffs once they cancel, answer on the error channel only |
| `QueueAnswers.AbandonsOnlyDone` | core/bifrost.go:7407-7490 | a message is let go without an answer exactly when the caller's context is done; billing it runs its post-hooks once, and only for a non-streaming request |
| `QueueAnswers.AnswerIsReceived` | core/bifrost.go:5805-5850 | an answer to a waiting caller can be received and is the answer to that caller's request |
| `QueueAnswers.CallerFinishes` | core/bifrost.go:5817-5897 | a caller that received its answer can finish; its post-hooks have then run exactly once, or not at all for a stream, and its channels are back in their pools, empty |
| `QueueMoves.AcquireMoves` | core/bifrost.go:8654-8687 | a message is made from channels that are pooled or new, emptied, with a stream channel exactly when the request streams |
| `QueueMoves.CheckingMoves` | core/bifrost.go:5744-5757 | the closing check goes on to the send exactly when the queue is open, and to the rerouting exactly when it is closing |
| `QueueMoves.RerouteMoves` | core/bifrost.go:5744-5757 | a rerouted caller takes its own provider's current queue if that is another one, and gives up otherwise |
| `QueueMoves.CandidateMoves` | core/bifrost.go:5744-5757 | the other queue is of the same provider, and is used exactly when it is open |
| `QueueMoves.SendMoves` | core/bifrost.go:5760-5803 | in either send, the cases open to the caller: send with room, give up when closing or done, find full, block |
| `QueueMoves.SendDelivers` | core/bifrost.go:5760-5803 | a send puts the caller's own message at the tail of the queue and touches no other |
| `QueueMoves.WaitMoves` | core/bifrost.go:5805-5897 | a waiting caller can receive exactly what lies in its error or result channel, and leaves only when its context is done |
| `QueueMoves.LeavingKeepsChannels` | core/bifrost.go:5884-5893 | leaving with the answer outstanding releases neither message nor channels |
| `QueueMoves.GivingUpReleases` | core/bifrost.go:5744-5803 | giving up before the send releases the message and returns its channels empty |
| `QueueMoves.CallerWaitsOnlyWhenBlocked` | core/bifrost.go:5744-5803 | before its message is sent a caller always has a next step, except at a full open queue |
| `QueueMoves.WorkerMoves` | core/bifrost.go:6933-6963 | a worker between messages takes when there is one, notices the signal once given, and leaves only an empty queue |
| `QueueMoves.HandoffMoves` | core/bifrost.go:3964-4005 | the handoff moves exactly while the new queue has room, and starts cancelling exactly when not |
| `QueueMoves.CancelsOnlyWhenFull` | core/bifrost.go:3964-4005 | a handoff that cancels has found the new queue full with a message in its hands |
| `QueueMoves.UpdateBegins` | core/bifrost.go:3943-3952 | an update begins at an unlocked provider; the new empty queue takes the route and the old one stays open |
| `QueueMoves.RemovalBegins` | core/bifrost.go:3768-3785 | a removal begins at an unlocked provider, signals its queue and refuses new calls |
| `QueueMoves.RetirementMoves` | core/bifrost.go:4015-4043 | the old queue is signalled only after its retirement was counted, and counted off only after it was swept |
| `QueueCompletion.UpdateCanFinish` | core/bifrost.go:3943-4043 | from every reachable state, an update in progress can finish, with the new queue in place and the old one's cleanup on the way |
| `QueueRemoval.RemovalCanFinish` | core/bifrost.go:3768-3840 | from every reachable state, a removal in progress can finish, with the provider gone and none of its workers running |
| `QueueTheorems.AnswerNeverBlocks` | core/bifrost.go:8710-8722 | whenever a worker or drainer holds a message, all its answer channels are empty and in no pool, so the send completes |
| `QueueTheorems.ChannelsNeverShared` | core/bifrost.go:8654-8687 | two unreleased messages have disjoint answer channels, and a pooled channel holds no value |
| `QueueTheorems.WindowNeverGrows` | core/bifrost.go:170-181 | over any run, from the closing signal on, the producers past their closing check but not yet sent only become fewer, and so do those that can still send |
| `QueueTheorems.AfterSweep` | core/bifrost.go:8689-8728 | over any run after the sweep, nothing is taken from the queue any more and only producers that could still send when it ended can add to it, each at most once |
| `QueueTheorems.SweptQueueStaysEmpty` | core/bifrost.go:8704-8728 | if no producer can still send when the sweep ends, the queue is empty forever and every message that ever entered it was taken out, in order |
| `QueueTheorems.LateSendIsStranded` | core/bifrost.go:8697-8703 | a send after the sweep leaves its message in the queue for the rest of the run |
| `QueueSweep.StrandsIffSenders` | core/bifrost.go:8697-8703 | from a swept, empty queue with room, some run leaves a caller waiting for a message that no later run takes out, if and only if a producer is past its last closing check |
| `QueueSweep.GainsIffSenders` | core/bifrost.go:5760-5803 | a swept queue can receive another message if and only if it has room and such a producer exists |
| `QueueSweep.SendStrands` | core/bifrost.go:8697-8703 | every such producer can be the one whose message is stranded |
| `QueueRace.StrandedMessageReachable` | core/bifrost.go:8689-8703 | from a provider with a running worker, a run in which the worker sees the signal and exits, the sweep finds nothing, and a late send strands its caller |
| `QueueProgress.NothingLostBeforeSweep` | core/bifrost.go:8689-8696 | once a worker was started on a queue and until its sweep is over, workers or the cleanup can always still take out every buffered message |
| `QueueProgress.StepKeepsClosing` | core/bifrost.go:4015-4043 | a closing queue without a sweep always has an update about to spawn its cleanup |
| `QueueTheorems.HandoffPartitions` | core/bifrost.go:3960-4005 | of the messages the handoff took in queue order, a prefix was moved and the rest cancelled, never both or neither, and the moved ones entered the new queue in that order |
| `QueueTheorems.RemovalWaitsForEveryGeneration` | core/bifrost.go:3787-3803 | once RemoveProvider has passed its last wait, no worker of any generation ever started for the provider is running |
| `QueueTransfer.TransferBuffered` | core/bifrost.go:3960-4005 | the old queue ends empty; exactly as many messages as fit enter the new queue in order, unanswered; all others have the queue-full error or a caller that is gone |
| `QueueTransfer.Queue.DrainWithErrors` | core/bifrost.go:8704-8728 | the queue ends empty and each message in it has the shutdown error or a caller that is gone |
| `KeyPool.CollectAvailable` | core/bifrost.go:7171-7177 | the loop keeps exactly the pool keys outside the excluded IDs, in order |
| `KeyPool.SelectKey` | core/bifrost.go:7170-7215 | the choice is the selector's own answer on the offered keys; a picked key is a live member and, without a reset, unused; all-dead exactly when no live key is left; under a constant veto a reset happens only when every live unvetoed key is used, and all-filtered exactly when some key is live but all live keys are vetoed |
| `KeyPool.SelectRotating` | core/bifrost.go:7170-7215 | for every filter: offered is what the filter leaves of the live unused keys, or after a reset of all live keys, unfiltered if the filter fails; picked, selector error, all-filtered and all-dead follow from that list |
| `KeyPool.SelectFixed` | core/bifrost.go:458-474 | the fixed key is refused exactly when it is dead or the filter leaves nothing |
| `KeyPool.SelectedIsFair` | core/bifrost.go:7170-7215 | under a constant veto a choice from the offered lists is fair |
| `KeyPool.NothingLeft` | core/bifrost.go:7178-7184 | under a veto nothing is offered exactly when the veto covers every key the exclusions left |
| `Backoff.BackoffCapped` | core/utils.go:145-154 | no sleep exceeds the configured maximum, whatever overflowed |
| `Backoff.BaseIsIdealIff` | core/utils.go:147 | the capped delay is the intended one exactly when the product fits in 64 bits or its wrapped value still reaches the maximum |
| `Backoff.WrapsToSame` | core/utils.go:147 | shifting first and wrapping later loses only multiples of 2^64 |
| `Backoff.BackoffLowerBound` | core/utils.go:149-153 | while the product fits, a sleep is at least 0.8 of the intended delay, up to truncation |
| `Backoff.BackoffUpperBound` | core/utils.go:149-153 | while the product fits, a sleep is at most 1.2 of the intended delay |
| `Backoff.BackoffExact` | core/utils.go:147-153 | while the jittered delay is in range too, the sleep is that delay, cut off at whole nanoseconds and at the maximum |
| `Backoff.OverflowSkipsTheSleep` | core/utils.go:147 | with the default delays, and any jitter, the 36th retry sleeps not at all although the intended delay is the maximum |
| `RetryLoop.ExecuteRequestWithRetries` | core/bifrost.go:6373-6905 | at most MaxRetries+1 calls plus one after a single strip; a key that answered 401, 402 or 403 is never used again; keys change only after key-bound failures; selected keys are the selector's answers; under a constant filter a rate-limited key returns only after every live unvetoed key was rate-limited; every sleep is the backoff of its retry, absent exactly after a permanent key failure or a strip, and bounded in total; one trail record per keyed call, marked as rotated exactly when the next call is on another key; the outcome, its error and the selected key ID follow from the last call |
| `RetryLoop.WhySelectionStopped` | core/bifrost.go:6435-6467 | when selection ends a run under a constant filter: all-dead exactly when every key is dead, all-filtered exactly when some key is live and all live keys are vetoed, a selector error exactly when a live unvetoed key was left |
| `RetryLoop.PromisesByStatus` | core/utils.go:28-52 | by status: 401, 402 and 403 end a key's use, only those, 429 and rate-limit text change the key, which statuses and messages warrant a retry, and the reason in the trail |
| `RetryLoop.GivesUpOnlyWhenDone` | core/bifrost.go:6769-6833 | a failed run has used up its attempts, or its last error warrants none and no strip was left |
| `RetryLoop.SleepsNearIdeal` | core/bifrost.go:6544-6548 | the sleep before retry i is within 20 percent of min(initial * 2^(i-1), max), while these fit |
| `RetryLoop.LegitRunPromises` | core/bifrost.go:6385-6548 | calls that are each legitimate after the ones before it satisfy all promises about keys, rotation and sleeping |
| `RetryLoop.KeyForAttempt` | core/bifrost.go:6385-6548 | the key and sleep of an attempt make a legitimate call, and without a key every member is dead or vetoed |
| `RetryLoop.MakeCall` | core/bifrost.go:6474-6497 | marking the pending record, appending one and filling in the reason keeps the trail matching the calls |
| `RetryLoop.AfterFailure` | core/bifrost.go:6769-6871 | the classification retries exactly retryable errors or a first strip, and the key sets again name the dead and the currently rate-limited keys |
| `RetryLoop.TotalSleepBounded` | core/bifrost.go:6544-6548 | a run sleeps at most the number of its sleeping retries times the maximum |
| `RetryLoop.LimitedGrows` | core/bifrost.go:7210-7212 | a pool reset forgets exactly the keys rate-limited before it |
| `ExclusiveOps.MutualExclusion` | core/mcp/clientmanager.go:283-308 | for any number of callers at most one unfinished winner exists per client ID, and the slot names its operation |
| `ExclusiveOps.ReplacedOnlyWhenDone` | core/mcp/clientmanager.go:283-308 | a registration is never deleted, and replaced only by a compare-and-swap against an operation that is done |
| `ExclusiveOps.RefusedOnlyWhileBusy` | core/mcp/clientmanager.go:291-303 | a caller is refused only while another caller is between winning the slot and closing its done signal |
| `ExclusiveOps.FinalOverRun` | core/mcp/clientmanager.go:310-315 | the error an operation finished with never changes afterwards |
| `ExclusiveOps.JoinedReportsFinalError` | core/mcp/clientmanager.go:317-335 | a waiter that joined loaded its operation from the slot and reports the error that operation finished with |
| `ExclusiveOps.LaterCallerWins` | core/mcp/clientmanager.go:283-308 | with a finished operation registered, a caller alone replaces it and wins in three steps |
| `ExclusiveOps.ReportReachesWaiter` | core/mcp/clientmanager.go:310-335 | a winner's reported error is what whoever waits for its operation joins with |
| `ExclusiveOps.CallersNeverStuck` | core/mcp/clientmanager.go:283-308 | until it is refused or has finished, a caller always has a next step |
| `SlotRefinement.SlotRunRefines` | core/mcp/clientmanager.go:283-315 | every run of the lock-free slot is a run of the connection model's acquire and release steps, with the same slots held at every point |
| `McpSafety.StepKeeps` | core/mcp/clientmanager.go:1838-1906 | every locked region and every dial step keeps the connection invariants |
| `McpTheorems.NoConnectionLeaks` | core/mcp/clientmanager.go:2347-2380 | with no dial in progress, the open connections are exactly those referenced by entries in the client map |
| `McpTheorems.NoLeakForClient` | core/mcp/clientmanager.go:2174-2204 | the same for one client without a dial, whatever the others do |
| `McpTheorems.NeverShowsClosed` | core/mcp/clientmanager.go:1095-1124 | at every moment an entry in the map references only an open connection, and no two entries share one |
| `McpTheorems.DialAccountsForRest` | core/mcp/clientmanager.go:1908-1914 | during a dial every open connection is shown by an entry or still to be closed or committed by the dial |
| `McpTheorems.SwapShowsPrevious` | core/mcp/clientmanager.go:1860-1870 | while a live HTTP or SSE connection is being replaced, the entry that was not removed shows the previous connection, still open |
| `McpTheorems.SwapEndsByCommitOrFailure` | core/mcp/clientmanager.go:2172-2222 | that phase ends only with the new connection in the entry, with a failed dial, or with removal |
| `McpTheorems.GenerationCountsBumps` | core/mcp/clientmanager.go:2214-2222 | exactly a swap, a detach, a failed dial and a sticky-to-per-call switch raise an entry's generation, by one |
| `McpTheorems.SameGenerationIffUnbumped` | core/mcp/clientmanager.go:2366 | over any run an entry keeps its generation exactly when none of those took effect on it |
| `McpTheorems.CheckLandsIffUnbumped` | core/mcp/connectionchecker.go:320-336 | on the same entry, the write of a check lands exactly when none of those took effect since the check started |
| `McpTheorems.LossLandsIffUnbumped` | core/mcp/clientmanager.go:2286-2303 | the same for the connection-lost callback registered by a commit |
| `McpTheorems.MappedIffNotRemoved` | core/mcp/clientmanager.go:1095-1124 | an entry stays under its ID exactly until a removal or a dropped failed add, and that entry never comes back |
| `McpTheorems.AppearsOnlyBy` | core/mcp/clientmanager.go:1889-1903 | a client not in the map comes into it only by an add, a boot fallback, or a dial by the holder of its slot with the configuration it had read; its entry is then new, without a connection, at generation zero |
| `McpReturn.ComesBackIffRead` | core/mcp/clientmanager.go:411-440 | from any state without the client in the map, some run without an add or boot fallback brings it back if and only if the holder of its slot has read its configuration |
| `McpReturn.ReadWhileInMap` | core/mcp/clientmanager.go:411-440 | a holder that has read the configuration did so at a step after which the client was in the map, and kept it ever since |
| `McpReturn.StaysAbsent` | core/mcp/clientmanager.go:411-416 | a client that is neither in the map nor read by its slot holder stays so under every step but an add of it |
| `McpTheorems.CheckReachesItsEntryIff` | core/mcp/connectionchecker.go:320-336 | a check's write reaches the entry it was started for exactly when since then the client was not removed and the entry not bumped |
| `McpTheorems.CheckReachesAnotherEntryIff` | core/mcp/connectionchecker.go:320-336 | a check's write lands on another entry exactly when the client was removed since the check started and the new entry was bumped, since its creation, as often as the old one had been when the check started |
| `McpTheorems.LossReachesAnotherEntryIff` | core/mcp/clientmanager.go:2286-2303 | the same for the connection-lost callback |
| `McpTheorems.GenerationIsBumpCount` | core/mcp/clientmanager.go:2214-2222 | over any run the generation grows by exactly the number of steps that bumped the entry |
| `McpTheorems.LossReachesItsEntryIff` | core/mcp/clientmanager.go:2286-2303 | the connection-lost callback reaches the entry it was registered for exactly when since then the client was not removed and the entry not bumped |
| `McpTheorems.AuthorityOutlastsLateWrites` | core/mcp/connectionchecker.go:383-408 | over any run a disabled or needs-reauth state lasts until a step meant to set that client's state; no check, callback or other client ever ends it |
| `McpTheorems.DisabledLeftOnlyBy` | core/mcp/clientmanager.go:1062 | an entry leaves the disabled state only by an enabling dial or one of the unguarded writes |
| `McpStaleWrites.StaleWriteLandsAfterReAdding` | core/mcp/connectionchecker.go:320-336 | for every client ID, a run in which a check started before removal writes to the re-added entry |
| `McpStaleWrites.DisableDoesNotStopToolWrite` | core/mcp/clientmanager.go:1142-1186 | for every client ID, a run in which a check in flight writes tools to a disabled entry |
| `McpStaleWrites.RotationDoesNotStopToolWrite` | core/mcp/clientmanager.go:358-391 | for every client ID, a run in which a check in flight writes tools to an entry marked needs-reauth |
| `McpReturn.RemovedClientComesBack` | core/mcp/clientmanager.go:436-440 | for every client ID, a run in which a reconnect takes the slot and the configuration, the client is removed, and the dial puts it back into the map, connected |
| `McpTheorems.LossMarksUnstable` | core/mcp/clientmanager.go:2286-2303 | the connection-lost callback makes its entry unstable exactly when the client was not removed, the entry not bumped and its state neither disabled nor needs-reauth, and leaves it unchanged otherwise |
| `McpTheorems.CheckWrites` | core/mcp/connectionchecker.go:320-408 | what a check writes to its entry: the tools it found, healthy or unstable, under the same conditions |
| `McpProgress.SlotCanBeReleased` | core/mcp/clientmanager.go:1838-2380 | whatever its holder is doing, a client's slot can be released |
| `McpProgress.DialCanSucceed` | core/mcp/clientmanager.go:2172-2222 | a dial whose entry is still in place can end with a fresh open connection shown, its tools and a healthy state |
| `McpManager.ClientManager.BeginDial` | core/mcp/clientmanager.go:1838-1906 | the first locked region of a dial is the begin step: refuse, keep the live connection, detach it, or create the entry |
| `McpManager.ClientManager.TakeConfig` | core/mcp/clientmanager.go:411-437 | a slot holder takes the configuration exactly of a client that is in the map and does not connect per call |
| `McpManager.ClientManager.CommitDial` | core/mcp/clientmanager.go:2172-2234 | the second locked region swaps in connection, tools, state and generation at once, exactly when the entry is still this dial's and not disabled |
| `McpManager.ClientManager.FailConnectAttempt` | core/mcp/clientmanager.go:2347-2380 | the failure region detaches the entry and raises its generation only if it is still this dial's and not disabled |
| `McpManager.ClientManager.RemoveClient` | core/mcp/clientmanager.go:1095-1124 | removal closes what the entry shows, clears it and deletes it from the map |
| `McpManager.ClientManager.DisableClient` | core/mcp/clientmanager.go:1151-1186 | the disable region is the disable step, refused exactly for missing or disabled clients |
| `McpManager.ClientManager.CloseAndMarkNeedsReauth` | core/mcp/clientmanager.go:358-391 | the credential rotation region is the rotate step, and leaves missing, per-call and disabled clients alone |
| `McpManager.ClientManager.UpdateClient` | core/mcp/clientmanager.go:1454-1496 | the update region closes and detaches on a sticky-to-per-call switch, keeping disabled and needs-reauth states |
| `McpManager.ClientManager.WriteBackTools` | core/mcp/connectionchecker.go:320-336 | the tool write-back is the guarded late write |
| `McpManager.ClientManager.SetState` | core/mcp/connectionchecker.go:383-408 | the checker's state write is the guarded late write |
| `McpManager.ClientManager.HandleConnectionLost` | core/mcp/clientmanager.go:2286-2303 | the callback sets unstable under its guards and changes no other field |
| `McpManager.ClientManager.RecordFailure` | core/mcp/connectionchecker.go:357-360 | a failed check sets unstable under its guards and changes no other field |
| `McpManager.ClientManager.RecordSuccess` | core/mcp/connectionchecker.go:366-368 | a successful check sets healthy under its guards and changes no other field |
| `McpManager.ClientManager.AddPlaceholder` | core/mcp/clientmanager.go:510-540 | a placeholder and the slot together, or neither when the slot is taken |
| `McpManager.ClientManager.AddDisabledClient` | core/mcp/clientmanager.go:484-508 | the dormant entry of a disabled client, with its persisted tools if it connects per call |
| `McpManager.ClientManager.RetainAfterBoot` | core/mcp/mcp.go:270-285 | after a failed boot add the client is in the map, unstable |
| `McpManager.ClientManager.RegisterClient` | core/mcp/clientmanager.go:552-645 | registration without a dial: parked, or healthy with its discovered tools added |
| `McpManager.ClientManager.FinishVerification` | core/mcp/clientmanager.go:1604-1612 | only a client pending verification becomes healthy |
| `McpManager.ClientManager.MarkAfterFailedDial` | core/mcp/clientmanager.go:1264-1274 | unstable, unless disabled or needs-reauth |
| `McpManager.ClientManager.SetClientTools` | core/mcp/clientmanager.go:1052-1065 | tools are added and the state is healthy, whatever it was |
| `McpManager.ClientManager.DropAfterFailedAdd` | core/mcp/clientmanager.go:686-692 | whatever entry is under the ID is deleted |
| `McpManager.ClientManager.CloseBeforeDial` | core/mcp/clientmanager.go:1908-1914 | close-first closes the detached connection before dialling |
| `McpManager.ClientManager.TryConnect` | core/mcp/clientmanager.go:2003-2030 | an attempt closes the previous attempt's connection and opens a new one, or none |
| `McpManager.ClientManager.CloseHalfBuilt` | core/mcp/clientmanager.go:2379 | a failed dial closes its half-built connection |
| `McpManager.ClientManager.CloseReplaced` | core/mcp/clientmanager.go:2268-2272 | every dial ends by closing the replaced connection |
| `Usage.MergeAssociative` | core/mcp/agent.go:401-511 | merging usages is associative with the nil usage as unit |
| `Usage.TotalIsComponentSum` | core/mcp/agent.go:401-511 | each of the sixteen token counts and seven costs of the total is the sum over all calls, and an optional part is present exactly when some call has it |
| `Usage.TotalSplits` | core/mcp/agent.go:391-392 | how the calls are grouped does not change the total |
| `Usage.ComponentsDetermine` | core/mcp/agent.go:401-511 | the components, the present parts and the uncopied fields determine a usage |
| `Usage.UncopiedSurviveIff` | core/mcp/agent.go:401-511 | with two or more reported usages the total has none of the uncopied fields; with one it is that usage |
| `AgentLoop.ExecuteAgent` | core/mcp/agent.go:140-397 | at most maxAgentDepth model calls; the conversation, its rounds of tools and the exit taken are as the responses demand, and usage on successful exits is the total over all responses |
| `AgentLoop.RequestsCarryEveryResult` | core/mcp/agent.go:168-397 | each request is the original history followed, per earlier response, by its assistant messages and exactly one result per tool call in some order |
| `AgentLoop.RunTools` | core/mcp/agent.go:290-352 | every auto-executed call yields one result, and an auth error is reported exactly when some call needs it |
| `AgentLoop.ResultContents` | core/mcp/agent.go:549-582 | a tool's own message is passed on; a failure or missing answer gives a tool message with the call's ID, marked as an error with the tool's name and error text, or empty |
| `AgentLoop.RoundsAnswerTheirCalls` | core/mcp/agent.go:340-392 | in every round sent to the model the made results carry exactly the IDs of the calls whose tool gave no message |
| `AgentLoop.KindsPartition` | core/mcp/agent.go:179-279 | every tool call is either auto-executed or left to the caller |
| `AgentLoop.ExtractToolCalls` | core/mcp/agent.go:522-537 | the tool calls of all choices in order, whatever the finish reasons say |
| `FallbackChain.HandleRequest` | core/bifrost.go:5372-5459 | the attempts are a prefix of primary and configured fallbacks, all but the last pass on, and the outcome is the last one's or, when all pass on, the primary's error |
| `FallbackChain.HandledIsUnique` | core/bifrost.go:5372-5459 | that contract determines outcome and attempts |
| `FallbackChain.StoppersEnd` | core/bifrost.go:5178-5207 | an error of type request_cancelled, or with fallbacks disallowed, ends the chain |
| `FallbackChain.OthersPassOn` | core/bifrost.go:5306-5318 | every other refusal goes on to the next candidate |
| `FallbackChain.RespondsIffFirstSuccess` | core/bifrost.go:5178-5207 | a response comes back exactly when some candidate is the first success, and it is that candidate's |
| `FallbackChain.FailureIsPrimarysOrStoppers` | core/bifrost.go:5306-5318 | an error returned is the primary's, unless an attempt stopped the chain by cancellation or by disallowing fallbacks, and then it is that attempt's |
| `FallbackChain.PanicsIff` | core/bifrost.go:5306-5309 | the call panics exactly when the chain reaches a fallback that fails without an error field |
| `FallbackChain.FieldlessPanics` | core/bifrost.go:5306-5309 | with one configured fallback and errors without an error field, the request panics |
| `SessionStickiness.AllRequestsAgree` | core/bifrost.go:9126-9181 | every finished request of a session has the key ID of the first successful set-if-absent, whatever the selector returns, also when it fails for some |
| `SessionStickiness.ReaderKeepsStored` | core/bifrost.go:9133-9140 | a request that reads a stored pool key finishes with it |
| `SessionStickiness.FirstRequestSets` | core/bifrost.go:9148-9163 | a request that finds nothing stores the selector's choice and keeps it |
| `SessionStickiness.FirstStays` | core/bifrost.go:9126-9181 | once set, the session's key ID stays for the rest of the run |
| `SessionStickiness.EmptyIdBreaksAgreement` | core/bifrost.go:9209-9219 | with an empty key ID in the pool, a run in which two requests get different keys |
| `SessionStickiness.AgreementIff` | core/bifrost.go:9190-9219 | requests can never disagree exactly when no pool key has an empty ID |
| `WeightedSelection.WeightedRandom` | core/keyselectors/weightedrandom.go:9-35 | the first key whose cumulative weight exceeds the draw; a uniform draw when the total is zero; the final fallback is never reached |
| `WeightedSelection.DrawCountIsWeight` | core/keyselectors/weightedrandom.go:23-32 | exactly as many of the possible draws select a key as its weight times 100, truncated |
| `WeightedSelection.EveryDrawPicks` | core/keyselectors/weightedrandom.go:23-35 | every draw below the total picks one key and only one |

## Left out

- Unbuffered provider queues (capacity zero), where send and receive happen together.
- The instant between setting the closing flag and closing the done signal: the two are one step, except that a full queue's default branch may still be taken.
- QueueProgress.NothingLostBeforeSweep: states that the messages can be taken, by some run; no fairness of the scheduler is assumed. The same holds for `QueueCompletion`, `QueueRemoval` and `McpProgress`.
- Taking a message and its channels from their pools, and giving them back, is one step each in `ProviderQueues`.
- Shutdown of the whole gateway, and provider construction that fails after the queue was published; the latter appears only as a queue without workers.
- Post-hooks of streaming responses that run in the stream goroutine.
- QueueTransfer.TransferBuffered: runs without concurrent workers and producers; the interleaved handoff is `QueueTheorems.HandoffPartitions`.
- QueueTransfer.Queue.DrainWithErrors: runs without concurrent senders; the interleaved sweep is `QueueTheorems.AfterSweep` and `QueueSweep`.
- The text patterns of the rate-limit match and the encrypted-content check: both are arbitrary functions of the error or the attempt.
- The loop's missing-tracer exit, tracing spans, routing logs, latency stamps, and the cross-request failure marker.
- Floating-point rounding in jitter, cost sums and scaled weights: these are real numbers, truncated where the source converts to an integer.
- Integer wrap-around of token counts and of summed weights.
- Backoff.BackoffLowerBound: for delays whose jittered value fits in a 64-bit duration, because the conversion of a larger float is implementation-defined.
- Cancel functions, connection info, tool-name mappings, change callbacks and the checker registry of an MCP client; the in-process local client; OAuth and header verification flows.
- The order of tool results within one round is arbitrary; cancellation of tool calls is not modelled.
- The Responses adapter of the agent loop and the rendering of the combined response text.
- The streaming twin of the fallback chain, request validation and plugin pre-request hooks.
- Session stickiness with store errors, expiry, or requests that see different key pools.
- Provider implementations, per-request-type plumbing, HTTP, CLI and UI.
