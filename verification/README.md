# Verified model of the bundler

A Dafny model of the in-memory machinery of an ERC-4337 bundler, with proofs of what it keeps. Three parts
are modelled and linked to one another.

**Mempool, reputation, bundles and events.** `Mempool` holds the pending operations and a counter per address,
`Reputation` the seen and included scores and the statuses they imply, `Bundle` the greedy loop that builds a
bundle and the attribution of its failure, `Events` the folding of chain events back into both, and
`ExecutionManagers` the entry points, with the debug calls. Each is a class whose methods change its fields
and are proved equal to a function on values. `MempoolRuns`, `BundleRuns` and the second half of `Events`
prove what every run of those functions keeps, and `BundleRepeats` what an accepted bundle leaves behind.
`Execution` lets submissions, timer attempts, provider answers and debug calls interleave at every await, with
the two mutexes as queues whose head is the holder; `ExecutionRuns` proves mutual exclusion, absence of
deadlock, that bundles are sound whatever happens between the awaits, and that a crash ban excludes its
target; `ExecutionProgress` adds that every task can end. `ScanRuns` sets the machine beside a growing chain:
when scans of past events can overlap, and when each event counts once. `LiveRuns` adds the live listener, and
`InclusionRuns` the inclusion counts that come of it. `ExecutionMempool` carries the mempool's run laws to
every interleaving, and `ExecutionAlone` proves that a task running alone ends where the uninterrupted call
does.

**Tracer and rule checker.** `Tracer` is the step-driven collector, `TracerRuns` reads everything it
has collected off the trace itself, `CallTree` rebuilds the call tree, and `Rules` decides the validation
rules with an if-and-only-if against a declarative, order-free predicate. `TracedRules` composes them: the
decision is restated over the callbacks alone, with no mention of anything collected.

**Two small cores.** `StorageMaps` is the join of storage access maps, in place on mutable tables and on
values; `PreVerificationGas` is the calldata price, its ABI encoding byte by byte, and the validator's check of the
estimate.

How to read it: a function on values says what an operation computes, a method of a class or a loop is proved
equal to it, and the lemmas say what the function guarantees. What the lemmas mean by gas, stake, roles, called
addresses and so on is written out from the fields in ghost definitions of their own, not with the functions they are about. `Common` has shared values and list facts, and
`MempoolExamples`, `BundleExamples`, `RulesExamples` and `TracedExamples` concrete runs. `dafny verify dfyconfig.toml` checks everything.

## Choices of the model

- Addresses are naturals, already normalised; the code lower-cases some of its strings and not others. Nonces too are
  taken as normalised: line 253 of MempoolManager.ts compares the raw values, so that "0x0" and "0x00" are two slots there.
- `* 1.1` and the fractional arithmetic of the gas price are exact.
- Hashes, decoded return data, simulation results, chain balances, provider answers and delivery results are
  arbitrary inputs or function parameters.
- A thrown error is a `Fail`, an `Err` or a `threw` result. Where the code has already changed state before it throws, so
  does the model: `addUserOp` bumps its counters before the checks that may reject.
- One iteration of the bundle loop is interruptible once, between its checks and the rest. The later awaits
  (`balanceOf`, `eth_getProof`) touch only the pass's own variables, so they are merged into that rest.
- In the interleaved machine a scan may be answered with any list of events; in `ScanRuns` with what the chain held, at some
  moment while it waited, from the block it asked from.

## Where code and comment differ

The model follows the code.

- `hourlyCron` speaks of back-off of both scores, but line 84 of ReputationManager.ts derives `opsIncluded` from the
  decayed `opsSeen`; a tick therefore absolves everybody (`CronAbsolvesEveryone`, `CronLiftsCrashBan`).
- `sendBundle` says it removes the sent operations from the mempool; only events do that. Until then,
  while its pass removes nothing and validations stay the same, every further attempt sends that bundle again
  (`AcceptedOpsStayPending`, `AcceptedBundleRepeated`).
- The per-bundle count of throttled entities (lines 206 and 219 of BundleManager.ts) stands on the right of a
  `??` whose left side is never null, so a throttled entity contributes nothing rather than four.
- The tracer means to exempt GAS before a call, and exempts it before every opcode with CALL in its name
  (`GasCollectedExactly`, `GasBeforeCallerIsAccepted`).
- The inclusion order is described as by cost and is ascending: the lowest priority fee comes first.
- The storage map returned by the rule checker keeps the reads of the first level that touched a contract only
  (`EveryReadReportedExactly`, `AcceptedReadIsLost`).
- The byte prices of `calcPreVerificationGas` pass through a byte array, so custom prices wrap at 256.
- The mutex of `sendNextBundle` covers neither the second scan of `attemptBundle`, made when the mempool size is zero, nor
  the scan at the end of the debug call `sendBundleNow`, made for every size. In each of the two ways scans may overlap and
  count an event twice (`OverlapReachable`, `EventHandledTwice`); while the size is never zero and nobody calls
  `sendBundleNow` they cannot, and every event counts once (`OneScanAtATime`, `MachineHandlesOnceInOrder`). Nothing else
  lets them overlap (`OverlapPossibleExactly`).
- The live listener moves the scans' place on the chain as well. A delivery between scans makes the next scan start behind
  its own block: events not fetched yet, such as the AccountDeployed event of the same block, are then never handled, and
  others are handled twice (`LiveDeliveriesAccounted`, `OneDelivery`, `DeploymentNeverHandled`).
- A failure blamed on a sender (AA2) bans it without effect on bundles: its pending operation is bundled again
  (`BlamedSenderBundledAgain`, `SenderScoresIrrelevant`).

## Model

| member | source | states |
|---|---|---|
| Reputation.StatusThresholds | packages/bundler/src/modules/ReputationManager.ts:142-170 | with the bundler's slacks, an address with k inclusions is OK below 10(k+11) sightings and BANNED exactly from 10(k+51) on |
| Reputation.StatusMonotone | packages/bundler/src/modules/ReputationManager.ts:142-170 | more sightings never improve a status and more inclusions never worsen it, for any slacks |
| Reputation.StakeCheckedExactly | packages/bundler/src/modules/ReputationManager.ts:271-303 | who passes the stake check, and that a ban is reported before a missing stake |
| Reputation.AllowanceBounds | packages/bundler/src/modules/ReputationManager.ts:309-327 | the unstaked allowance lies between 10 + min(included, 10000) and ten more, and is the upper bound exactly when every sighting was included |
| Reputation.FloorDivFloors | packages/bundler/src/modules/ReputationManager.ts:309-327 | the inclusion rate is rounded towards minus infinity, for either sign of the sightings |
| Reputation.ReputationManager.AddWhitelist | packages/bundler/src/modules/ReputationManager.ts:92-94 | adds exactly the listed addresses |
| Reputation.ReputationManager.AddBlacklist | packages/bundler/src/modules/ReputationManager.ts:96-98 | adds exactly the listed addresses |
| Reputation.ReputationManager.UpdateSeen | packages/bundler/src/modules/ReputationManager.ts:117-124 | in place: one more sighting for that address, created on demand; nothing for an undefined one |
| Reputation.ReputationManager.UpdateIncluded | packages/bundler/src/modules/ReputationManager.ts:131-135 | in place: one more inclusion for that address, created on demand |
| Reputation.ReputationManager.Crashed | packages/bundler/src/modules/ReputationManager.ts:199-209 | in place: 10000 more sightings and no inclusions left; nothing for an undefined address |
| Reputation.ReputationManager.Cron | packages/bundler/src/modules/ReputationManager.ts:80-90 | the key-by-key loop with deletions gives the map of decayed entries without the vanished ones, in any visiting order |
| Reputation.ReputationManager.Clear | packages/bundler/src/modules/ReputationManager.ts:214-216 | forgets all scores and neither list |
| Reputation.ReputationManager.Set | packages/bundler/src/modules/ReputationManager.ts:222-231 | writes the given scores in order and keeps the others |
| Reputation.SetReputationExactly | packages/bundler/src/modules/ReputationManager.ts:222-231 | each address ends with the last score the dump lists for it, and keeps its own when it lists none |
| Reputation.ScoreDecaysExponentially | packages/bundler/src/modules/ReputationManager.ts:77-90 | after k cron ticks with no other update 24^k times the score is at most 23^k times the original |
| Reputation.DecayRoundsDown | packages/bundler/src/modules/ReputationManager.ts:83-84 | one tick takes a score to 23/24 of it, rounded down |
| Reputation.CronsEntry | packages/bundler/src/modules/ReputationManager.ts:80-90 | which entries survive k ticks, and their two values, in closed form |
| Reputation.LedgerEmptiesExactlyWhenNonNegative | packages/bundler/src/modules/ReputationManager.ts:80-90 | cron ticks alone empty the ledger after finitely many ticks if and only if no score is negative |
| Reputation.CronAbsolvesEveryone | packages/bundler/src/modules/ReputationManager.ts:83-84 | right after a tick every address off the black list is OK, because opsIncluded is recomputed from the decayed opsSeen |
| Reputation.ClearAbsolvesEveryone | packages/bundler/src/modules/ReputationManager.ts:214-216 | with the scores forgotten only the two lists decide, and every allowance is ten |
| Reputation.CronLiftsCrashBan | packages/bundler/src/modules/ReputationManager.ts:77-90 | a crash ban is lifted by one tick of the code, and would survive one tick of the back-off its comment describes |
| Reputation.CrashBans | packages/bundler/src/modules/ReputationManager.ts:199-209 | a crash bans an address off the white list for as many inclusions as the parameters leave room for |
| Reputation.CrashBanLasts | packages/bundler/src/modules/ReputationManager.ts:117-170 | along every run of sightings, inclusions and crashes a ban lasts while its budget of inclusions does |
| Reputation.FirstCrashBanLength | packages/bundler/src/modules/ReputationManager.ts:142-209 | with default parameters a first crash bans through exactly 949 inclusions |
| Common.SameAddressExactly | packages/utils/src/Utils.ts:111-120 | data names an address if and only if it has at least 20 bytes, a 160-bit one, and the same one if and only if the first 20 bytes agree |
| Mempool.MempoolManager.Add | packages/bundler/src/modules/MempoolManager.ts:69-113 | in place: replaces on (sender, nonce) or counts, checks and appends; a throw keeps the counters already bumped |
| Mempool.MempoolManager.Remove | packages/bundler/src/modules/MempoolManager.ts:274-290 | in place: removes the first match by hash or by (sender, nonce) and lowers its three roles; no match changes nothing |
| Mempool.MempoolManager.FindKey | packages/bundler/src/modules/MempoolManager.ts:250-258 | the scan returns the first entry of that sender and nonce, or -1 when there is none |
| Mempool.MempoolManager.FindHash | packages/bundler/src/modules/MempoolManager.ts:260-268 | the scan returns the index of the first entry of that hash, or -1 when no entry has it |
| Mempool.MempoolManager.IncrementEntryCount | packages/bundler/src/modules/MempoolManager.ts:40-46 | in place: one more for that address, none for an undefined one |
| Mempool.MempoolManager.DecrementEntryCount | packages/bundler/src/modules/MempoolManager.ts:48-58 | in place: one less, deleting the counter when it reaches zero |
| Mempool.MempoolManager.UpdateSeenStatus | packages/bundler/src/modules/MempoolManager.ts:115-129 | credits the aggregator, paymaster and factory, and the sender only when it passes the stake check |
| Mempool.MempoolManager.ClearState | packages/bundler/src/modules/MempoolManager.ts:302-305 | empties entries and counters |
| MempoolRuns.CountersCoverRoles | packages/bundler/src/modules/MempoolManager.ts:33-113 | over every run whose replacements keep their roles, each counter is the roles its address plays plus what rejected inserts leaked, and none stored is below one |
| MempoolRuns.CountersExactWithoutRejections | packages/bundler/src/modules/MempoolManager.ts:94-111 | all counters are exact if and only if no fresh insert was rejected since the last clear |
| MempoolRuns.ReplacementAgreesExactly | packages/bundler/src/modules/MempoolManager.ts:86-93 | a replacement keeps a counter in agreement if and only if that address plays as many roles in the new operation as in the old one |
| MempoolExamples.TwoPending | packages/bundler/src/modules/MempoolManager.ts:69-113 | a concrete run to a mempool of two operations with exact counters |
| MempoolExamples.ReplacementAccepted | packages/bundler/src/modules/MempoolManager.ts:86-93 | from there a concrete replacement naming the other operation's sender as its paymaster is accepted |
| MempoolExamples.OpposedBreaksBoth | packages/bundler/src/modules/MempoolManager.ts:86-93 | it turns separated roles and an exact counter into a sender that is another operation's paymaster and a counter that is too low |
| MempoolExamples.RejectionLeaksCounts | packages/bundler/src/modules/MempoolManager.ts:94-108 | a concrete rejected insert that leaves its counters behind |
| MempoolRuns.SlotsStayUnique | packages/bundler/src/modules/MempoolManager.ts:86-111 | no run ever holds two entries for one (sender, nonce) |
| MempoolRuns.RoleCheckIsExact | packages/bundler/src/modules/MempoolManager.ts:158-187 | on a separated mempool the role check passes if and only if the mempool stays separated with the new entry |
| MempoolRuns.RolesStaySeparated | packages/bundler/src/modules/MempoolManager.ts:158-187 | over every run whose replacements keep their roles, no sender is the paymaster or factory of a different entry |
| MempoolRuns.ReplacementSeparatedExactly | packages/bundler/src/modules/MempoolManager.ts:86-93 | a replacement keeps the separation if and only if its paymaster and factory are not senders of the other entries |
| MempoolRuns.UnstakedSenderCapped | packages/bundler/src/modules/MempoolManager.ts:133-156 | a sender that never passes the stake check never has more than four operations pending |
| MempoolRuns.EntityCapped | packages/bundler/src/modules/MempoolManager.ts:189-207 | after an accepted fresh insert an unstaked paymaster or factory plays at most its allowance of roles, a throttled one at most four, and none is banned |
| MempoolRuns.BannedInsertRejected | packages/bundler/src/modules/MempoolManager.ts:133-207 | a fresh operation using a banned sender, paymaster or factory is rejected and the pending list is unchanged |
| MempoolRuns.FreshAcceptedExactly | packages/bundler/src/modules/MempoolManager.ts:94-207 | a fresh operation is accepted if and only if no sender is the paymaster or factory of another pending operation and its sender, paymaster, factory and aggregator are each admitted: not banned, at most four roles if throttled, and within the cap (four for the sender, the allowance otherwise) or white-listed or meeting both stake minima; it is then appended as it came |
| MempoolRuns.ReplacementAcceptedExactly | packages/bundler/src/modules/MempoolManager.ts:209-236 | a replacement is accepted if and only if both fees grow by a tenth and all four are below 2^53; it changes that one entry and no counter |
| MempoolRuns.AcceptedIsSeen | packages/bundler/src/modules/MempoolManager.ts:115-131 | an accepted operation adds one sighting to its aggregator, paymaster and factory, and to its sender only when that passes the stake check |
| MempoolRuns.FeesGrowGeometrically | packages/bundler/src/modules/MempoolManager.ts:209-236 | k replacements of one slot multiply both fees by at least (11/10)^k |
| MempoolRuns.ReplacementsBounded | packages/bundler/src/modules/MempoolManager.ts:209-236 | a slot with a positive fee is replaced fewer than 424 times |
| MempoolRuns.SnapshotIsStableSort | packages/bundler/src/modules/MempoolManager.ts:238-248 | the inclusion order is ascending in the priority fee, stable, and a permutation of the mempool |
| MempoolRuns.SnapshotFailsExactly | packages/bundler/src/modules/MempoolManager.ts:238-248 | taking the snapshot throws if and only if it has two entries and some priority fee is 2^53 or more; otherwise it is the stable sort by that fee |
| StorageMaps.MergeAssociative | packages/utils/src/Utils.ts:131-152 | joining is associative |
| StorageMaps.MergeIdempotent | packages/utils/src/Utils.ts:131-152 | joining a map with itself changes nothing |
| StorageMaps.RootNeverDowngraded | packages/utils/src/Utils.ts:133-138 | once either side has a root for an account the result has a root |
| StorageMaps.MergeCommutesExactly | packages/utils/src/Utils.ts:122-152 | joining two maps commutes if and only if they agree on common roots and slots |
| StorageMaps.MergeOrderIrrelevant | packages/bundler/src/modules/BundleManager.ts:299-312 | joining a list of agreeing maps gives the same result in every order |
| StorageMaps.MergedIsPointwiseJoin | packages/bundler/src/modules/BundleManager.ts:299-312 | the joined map holds a root where some map has one, and otherwise the union of the slots |
| StorageMaps.StorageTable.MergeIn | packages/utils/src/Utils.ts:131-152 | the in-place form on mutable slot tables computes the join and leaves its second argument as it was |
| Bundle.BundleManager.AccessesForeignSender | packages/bundler/src/modules/BundleManager.ts:253-264 | the address loop finds a foreign known sender if and only if there is one |
| Bundle.BundleManager.Account | packages/bundler/src/modules/BundleManager.ts:253-312 | the part of an iteration after re-validation: skips, stops at the gas limit, or absorbs the operation into all six accumulators |
| Bundle.BundleManager.Consider | packages/bundler/src/modules/BundleManager.ts:191-312 | one loop body: the decision, the accumulators and the mempool it leaves |
| Bundle.BundleManager.CreateBundle | packages/bundler/src/modules/BundleManager.ts:173-319 | the loop that removes from the mempool while iterating equals the recursive pass over the snapshot |
| Bundle.BundleManager.SendBundle | packages/bundler/src/modules/BundleManager.ts:88-163 | blames the paymaster, sender or factory by the reason's prefix or removes the operation; a sent bundle leaves the mempool unchanged; out-of-range and fatal errors throw |
| Bundle.BundleManager.SendNextBundle | packages/bundler/src/modules/BundleManager.ts:60-77 | scan, build and send in this order, with an empty bundle not sent |
| BundleRuns.PassIsGreedy | packages/bundler/src/modules/BundleManager.ts:173-319 | a pass visits the sorted snapshot in order up to the gas cut-off, decides each entry by a rule over what was bundled before it, bundles exactly the included ones, and removes exactly the banned and the failed from the mempool |
| BundleRuns.FateFollowsRule | packages/bundler/src/modules/BundleManager.ts:192-297 | the decision taken from the accumulators is the one the history alone gives |
| BundleRuns.VisitKeepsFaithful | packages/bundler/src/modules/BundleManager.ts:191-312 | every iteration keeps the accumulators equal to sums over the history, whatever statuses, validations and balances it observes |
| BundleRuns.SendersDistinct | packages/bundler/src/modules/BundleManager.ts:229-237 | no sender occurs twice in a bundle |
| BundleRuns.GasBounded | packages/bundler/src/modules/BundleManager.ts:266-275 | preOpGas plus callGasLimit over the bundle never exceeds maxBundleGas |
| BundleRuns.CutOffExactly | packages/bundler/src/modules/BundleManager.ts:266-276 | an entry that reaches the gas test ends the pass if and only if preOpGas and callGasLimit of the bundled operations and its own sum to more than the limit |
| BundleRuns.PaymastersSolvent | packages/bundler/src/modules/BundleManager.ts:277-297 | the balance first read for a paymaster covers all prefunds bundled on its account |
| BundleRuns.AbsorbDeposits | packages/bundler/src/modules/BundleManager.ts:277-297 | what is left of a deposit plus the bundled prefunds stays equal to the balance first read |
| BundleRuns.OnlyGoodStandingBundled | packages/bundler/src/modules/BundleManager.ts:192-228 | every bundled operation's paymaster and factory were OK when visited: throttled ones contribute none |
| BundleRuns.GoodStandingInLedger | packages/bundler/src/modules/BundleManager.ts:187-249 | in an undisturbed pass every bundled operation's paymaster and factory are OK in the ledger, and its re-validation succeeded |
| BundleRuns.StorageIsolated | packages/bundler/src/modules/BundleManager.ts:253-264 | no bundled operation touched the storage of another bundled operation's sender |
| BundleRuns.SenderStorageIsItsOwn | packages/bundler/src/modules/BundleManager.ts:299-312 | a bundled sender's entry in the merged storage map comes from its own operation alone |
| BundleRuns.StorageOrderIrrelevant | packages/bundler/src/modules/BundleManager.ts:299-316 | the merged storage map does not depend on the order of the bundled operations |
| BundleRuns.SenderScoresIrrelevant | packages/bundler/src/modules/BundleManager.ts:191-237 | two ledgers that give the pending operations' paymasters and factories the same statuses give the same bundle, mempool and decisions: what senders score does not matter |
| BundleRepeats.AcceptedOpsStayPending | packages/bundler/src/modules/BundleManager.ts:113-133 | after an accepted or unparsed delivery every operation of the bundle is still in the mempool |
| BundleRepeats.AcceptedBundleRepeated | packages/bundler/src/modules/BundleManager.ts:60-77 | after an accepted bundle whose pass removed nothing, while no new event arrives and validations stay the same, every further attempt builds that very bundle again, however many were accepted before |
| BundleExamples.BlamedSenderBundledAgain | packages/bundler/src/modules/BundleManager.ts:145-161 | for every lone operation without paymaster and factory that keeps validating: an attempt blamed on its sender bans the sender, and the next attempt bundles that operation again |
| BundleExamples.BlamedSenderState | packages/bundler/src/modules/BundleManager.ts:145-161 | one such state written out |
| Events.EventsManager.Handle | packages/bundler/src/modules/EventsManager.ts:46-98 | in place: one event updates mempool, scores, aggregator cache and last block |
| Events.EventsManager.EventAggregator | packages/bundler/src/modules/EventsManager.ts:70-78 | answers from the cache, forgetting it when the transaction changes |
| Events.EventsManager.HandlePastEvents | packages/bundler/src/modules/EventsManager.ts:36-44 | a scan folds the events since the last block in chain order |
| Events.StartBlock | packages/bundler/src/modules/EventsManager.ts:37-39 | the first scan starts a thousand blocks back, or at block 1 when the chain is shorter |
| Events.EventsHandledOnceInOrder | packages/bundler/src/modules/EventsManager.ts:36-44 | with non-overlapping polls over an append-only chain, interleaved with any growth, the handled events are exactly those from the start block on, each once and in order |
| Events.PollCatchesUp | packages/bundler/src/modules/EventsManager.ts:36-44 | a poll that completes before the chain grows leaves nothing unhandled |
| Events.CacheAnswersTheTransaction | packages/bundler/src/modules/EventsManager.ts:61-78 | when each transaction's events are contiguous the cache answers the last aggregator announced in the same transaction, or none |
| Events.CacheAnswersUnlessDisplaced | packages/bundler/src/modules/EventsManager.ts:61-78 | for every order of events, the cache answers the latest aggregator announced in the transaction, or none when an operation or announcement of another transaction came after it |
| Events.CacheRightExactly | packages/bundler/src/modules/EventsManager.ts:61-78 | so its answer is the transaction's aggregator if and only if no such event intervened |
| Events.InclusionsCountMentions | packages/bundler/src/modules/EventsManager.ts:81-98 | opsIncluded of every address grows by exactly the number of times the handled events name it |
| Events.HandledTwiceCreditsTwice | packages/bundler/src/modules/EventsManager.ts:81-98 | an operation's event handled twice credits its sender twice |
| Events.IncludedOperationLeaves | packages/bundler/src/modules/EventsManager.ts:86-92 | an operation's event takes the first pending entry with its hash out of the mempool, or changes nothing when there is none; no other event changes the list |
| Events.PendingAreTheNotIncluded | packages/bundler/src/modules/EventsManager.ts:36-59 | with distinct hashes, after any list of events exactly the pending operations that none of them names are left, in order |
| ExecutionManagers.ExecutionManager.SetReputationCron | packages/bundler/src/modules/ExecutionManager.ts:63-72 | the running timer is the last one set, none for zero |
| ExecutionManagers.ExecutionManager.SetAutoBundler | packages/bundler/src/modules/ExecutionManager.ts:82-99 | timer, interval and mempool size are the last ones set |
| ExecutionManagers.ExecutionManager.AttemptBundle | packages/bundler/src/modules/ExecutionManager.ts:105-122 | sends unless below the mempool size and not forced, and scans once more in auto-bundling mode |
| ExecutionManagers.ExecutionManager.SendUserOperation | packages/bundler/src/modules/ExecutionManager.ts:35-61 | validates, inserts and attempts a bundle; any failure throws and ends there |
| ExecutionManagers.DebugMethodHandler.SendBundleNow | packages/bundler/src/DebugMethodHandler.ts:38-45 | forces an attempt and, when it returns normally, scans once more whatever the mempool size |
| ExecutionManagers.DebugMethodHandler.SetBundleInterval | packages/bundler/src/DebugMethodHandler.ts:20-36 | automatic mode sets the mempool size to zero, manual mode to 1000, and neither runs a timer |
| Execution.StepStaysOrderly | packages/bundler/src/modules/ExecutionManager.ts:35-61 | every interleaved step keeps both mutex queues in order: each holder is a queue head, and the bundle mutex is only ever awaited by timers or by the execution mutex's holder |
| ExecutionRuns.OnePassAtATime | packages/bundler/src/modules/BundleManager.ts:60-77 | in every reachable state at most one task is between taking and releasing the bundle mutex |
| ExecutionRuns.NoDeadlock | packages/bundler/src/modules/ExecutionManager.ts:35-61 | in every reachable state with an unfinished task some task can step |
| ExecutionRuns.OwnStepsFinish | packages/bundler/src/modules/ExecutionManager.ts:105-122 | each step of a task brings it strictly closer to its end |
| ExecutionProgress.EveryTaskCanEnd | packages/bundler/src/modules/ExecutionManager.ts:35-61 | from every reachable state some run of the tasks' own steps ends every task and leaves both mutexes free |
| ExecutionProgress.SubmissionsServedInOrder | packages/bundler/src/modules/ExecutionManager.ts:35-61 | however they interleave with everything else, submissions are taken up one at a time and in the order they were made, each only when the one before it is over |
| ExecutionProgress.FailureReleasesBoth | packages/bundler/src/modules/BundleManager.ts:60-77 | a provider call may fail exactly while a task awaits it; the task then ends, both mutexes are released, and mempool, scores and tracker stay as they were |
| ExecutionRuns.BundlesSoundUnderInterference | packages/bundler/src/modules/BundleManager.ts:173-319 | in every reachable state the bundle under construction has distinct senders from its snapshot, bounded gas, solvent paymasters and isolated storage, whatever ran between the awaits |
| ExecutionRuns.SentPassIsWhole | packages/bundler/src/modules/BundleManager.ts:185-319 | a bundle that is sent comes from a pass that visited its whole snapshot in order, unless the gas limit ended it at the last visit |
| ExecutionRuns.CrashExcludes | packages/bundler/src/modules/BundleManager.ts:134-162 | after a crash blamed on a paymaster, factory or sender, along every run with fewer than 950 inclusions and no cron, clear or set, the address stays banned and no later pass bundles an operation using it as paymaster or factory |
| ExecutionRuns.BansEndEarly | packages/bundler/src/modules/ReputationManager.ts:80-90 | a cron tick or clearing the scores lifts every ban the black list does not make, and leaves 23/24 of the sightings or none; setting scores writes the last one listed; none of them touches mempool or tasks |
| ExecutionRuns.ReachedEntryDropped | packages/bundler/src/modules/BundleManager.ts:192-202 | an entry using a banned address is dropped when the loop reaches it, and its slot is empty afterwards |
| ExecutionRuns.FreshInsertRefused | packages/bundler/src/modules/ExecutionManager.ts:39-60 | a submission that uses a banned paymaster or factory ends without entering the mempool |
| ExecutionRuns.FullMempoolIsAttempted | packages/bundler/src/modules/ExecutionManager.ts:105-116 | an accepted fresh operation goes on to an attempt if and only if the mempool has reached the size setting with it |
| ExecutionRuns.DeliveryOutcome | packages/bundler/src/modules/BundleManager.ts:127-164 | the answer to a bundle charges exactly the blamed party 10000 sightings and its inclusions, or empties the failed operation's slot when no party is blamed, and otherwise changes nothing |
| ExecutionRuns.DeliveryEndsExactly | packages/bundler/src/modules/BundleManager.ts:127-164 | the call ends at once if and only if the error is fatal, or its index is outside the bundle, or no scan follows |
| ScanRuns.OneScanAtATime | packages/bundler/src/modules/ExecutionManager.ts:105-122 | in every run whose mempool size setting is never zero and in which sendBundleNow is not called, at most one task scans past events |
| ScanRuns.MachineHandlesOnceInOrder | packages/bundler/src/modules/EventsManager.ts:36-44 | in every such run of the bundler beside a growing chain, with failing calls and without the live listener, the handled events are a prefix of the chain's events from the first start block on, each once and in order, and the rest is exactly what the next scan asks for |
| ScanRuns.OverlapPossibleExactly | packages/bundler/src/modules/ExecutionManager.ts:105-122 | with the size setting left alone, two scans from the same block can be outstanding if and only if it is zero or sendBundleNow may be called |
| ScanRuns.OverlapReachable | packages/bundler/src/DebugMethodHandler.ts:38-45 | with size zero, and by the debug call at any size, two scans from the same block can be outstanding shortly after any start |
| ScanRuns.OverlapHandlesBoth | packages/bundler/src/modules/EventsManager.ts:36-44 | two such scans handle both answers, and each event counts once if and only if the first answer was empty |
| ScanRuns.EventHandledTwice | packages/bundler/src/DebugMethodHandler.ts:38-45 | in each of the two ways, a run from any start in which one event on the chain is handled twice and its sender credited twice |
| LiveRuns.LiveDeliveriesAccounted | packages/bundler/src/modules/EventsManager.ts:26-59 | in every run with non-overlapping scans and any number of live deliveries between them: how often an event has been handled, or is to be by the next scan, is the sum of what blocks, the first head and each delivery gain for it, a delivery also giving up or repeating what lies between the old and the new place of the scans |
| LiveRuns.OneDelivery | packages/bundler/src/modules/EventsManager.ts:46-59 | with one delivery, of e, after scans up to block last: an event is never handled exactly when it lies from last to the block of e and is not e, and twice exactly when it is e and lies before last, or lies between the block of e and last |
| LiveRuns.DeliveredWhileAnswering | packages/bundler/src/modules/EventsManager.ts:40-43 | a delivery while a non-empty answer is on its way loses nothing and counts its own event once more |
| LiveRuns.DeploymentNeverHandled | packages/bundler/src/modules/EventsManager.ts:26-31 | a run from any start in which the AccountDeployed event of a block is handled in no continuation, because its operation was delivered live first |
| InclusionRuns.InclusionsFollowHandled | packages/bundler/src/modules/EventsManager.ts:81-98 | in every run of the bundler, whatever overlaps or is delivered live, the inclusions of an address not blamed, decayed or reset are those of handling the handled events one after the other |
| InclusionRuns.MachineCountsMentions | packages/bundler/src/modules/EventsManager.ts:36-98 | and with non-overlapping scans of a chain whose transactions stand together they grow by exactly the number of times the handled events, a prefix of the chain's, name it |
| ExecutionMempool.InterleavingIsMempoolRun | packages/bundler/src/modules/MempoolManager.ts:69-113 | every interleaving acts on mempool and scores as one run of the mempool's own events |
| ExecutionMempool.CountersInEveryInterleaving | packages/bundler/src/modules/MempoolManager.ts:33-113 | in every interleaving whose replacements keep their roles each counter is its roles plus what rejected submissions leaked |
| ExecutionMempool.CountersExactInEveryInterleaving | packages/bundler/src/modules/MempoolManager.ts:94-111 | there, all counters are exact if and only if no fresh submission was rejected since the last clear |
| ExecutionMempool.RolesSeparatedInEveryInterleaving | packages/bundler/src/modules/MempoolManager.ts:158-187 | there, no sender is the paymaster or factory of a different pending operation |
| ExecutionMempool.SenderCappedInEveryInterleaving | packages/bundler/src/modules/MempoolManager.ts:133-156 | there, a sender that never passes the stake check has at most four operations pending |
| ExecutionAlone.AttemptRunsAlone | packages/bundler/src/modules/ExecutionManager.ts:105-122 | an attempt, or a debug call, that runs alone through the interleaved machine ends in the state of the uninterrupted attemptBundle, or sendBundleNow |
| ExecutionAlone.SubmissionRunsAlone | packages/bundler/src/modules/ExecutionManager.ts:35-61 | so does a submission |
| CallTree.ParseCallStack | packages/validation-manager/src/TracerResultParser.ts:64-135 | the push and pop loop computes the scan's result |
| CallTree.EntryOf | packages/validation-manager/src/TracerResultParser.ts:80-126 | an entry keeps its call's kind, caller and target; only a creation loses its value, and is labelled without the ABI |
| CallTree.CallStackIsPostOrder | packages/validation-manager/src/TracerResultParser.ts:56-135 | for every call forest followed by the end of the traced call, the entries are its post-order, each exit paired with its own enter, and the synthetic top entry last; the stack ends empty |
| CallTree.ForestsAreBalancedLists | packages/validation-manager/src/TracerResultParser.ts:75-134 | the frame lists that are call forests are exactly the balanced ones |
| CallTree.BalancedCallsComeOutPostOrder | packages/validation-manager/src/TracerResultParser.ts:56-135 | so every balanced list comes out in post-order |
| Tracer.TopLevelCallInfo.Collect | packages/validation-manager/src/BundlerCollectorTracer.ts:243-316 | in place: one inner step updates opcodes, accesses, code sizes and flagged addresses of the current level |
| Tracer.BundlerCollectorTracer.TakeStep | packages/validation-manager/src/BundlerCollectorTracer.ts:172-343 | in place: one EVM step, including the stop event, level opening, and the failure when no level is open |
| Tracer.BundlerCollectorTracer.Enter | packages/validation-manager/src/BundlerCollectorTracer.ts:143-156 | appends the opening of a call unless collecting has stopped |
| Tracer.BundlerCollectorTracer.Exit | packages/validation-manager/src/BundlerCollectorTracer.ts:157-166 | appends the end of a call unless collecting has stopped |
| TracerRuns.AfterOnTrace | packages/validation-manager/src/BundlerCollectorTracer.ts:178-241 | after any number of steps: one level per call of the entry point, the last opcode, and the last three opcodes since the last RETURN or REVERT |
| TracerRuns.FailsExactlyWithoutLevel | packages/validation-manager/src/BundlerCollectorTracer.ts:188-193 | the tracer throws if and only if some step up to the stop event needs the current level before any call was opened |
| TracerRuns.FrozenAfterStop | packages/validation-manager/src/BundlerCollectorTracer.ts:172-176 | after the stop event nothing changes any more |
| TracerRuns.LevelsAreTheCalls | packages/validation-manager/src/BundlerCollectorTracer.ts:213-232 | the levels are the entry point's calls in order, each with its own call's selector and target |
| TracerRuns.OpcodesCounted | packages/validation-manager/src/BundlerCollectorTracer.ts:279-292 | for every level and opcode the count is its number of occurrences, GAS only where the next step is inside and not CALL-named; no zero is stored |
| TracerRuns.GasCollectedExactly | packages/validation-manager/src/BundlerCollectorTracer.ts:281-285 | GAS is among a level's opcodes if and only if some GAS in it was followed by an inner opcode without CALL in its name |
| TracerRuns.AccessesRecorded | packages/validation-manager/src/BundlerCollectorTracer.ts:294-316 | for every level, contract and slot: a read is kept exactly when the first access was an SLOAD, with the value then, and writes are the exact SSTORE count |
| TracerRuns.SizesTakenAtFirstUse | packages/validation-manager/src/BundlerCollectorTracer.ts:259-279 | the size kept for an address is its code size at its first use in the level, precompiles excepted |
| TracerRuns.ExtAccessesFlagged | packages/validation-manager/src/BundlerCollectorTracer.ts:243-257 | an address is flagged exactly when an EXT opcode named it and no exempt size check followed |
| TracerRuns.OogMarked | packages/validation-manager/src/BundlerCollectorTracer.ts:188-193 | a level is marked out of gas exactly when a low-gas step came while it was current |
| TracerRuns.BuffersKept | packages/validation-manager/src/BundlerCollectorTracer.ts:318-327 | the kept hash inputs are exactly the inner buffers of 21 to 511 bytes, in order |
| TracerRuns.CallsAreTheFrames | packages/validation-manager/src/BundlerCollectorTracer.ts:143-211 | over any callbacks without failure, up to the stop event, calls lists exactly the enters, exits and top-level ends, in order |
| TracerRuns.TraceParsesToPostOrder | packages/validation-manager/src/TracerResultParser.ts:56-135 | from callbacks to call stack: balanced inner calls come out as the post-order of their forest |
| Rules.ParseEntitySlots | packages/validation-manager/src/TracerResultParser.ts:145-180 | the nested loops give each entity exactly the hashes of the buffers that begin with it |
| Rules.AssociatedWith | packages/validation-manager/src/TracerResultParser.ts:341-364 | true exactly for the entity's own slot and for slots within 128 of one of its hashes |
| Rules.ScanSlots | packages/validation-manager/src/TracerResultParser.ts:373-415 | the slot scan rejects exactly when some slot is out of reach even for a staked entity, and otherwise asks for stake exactly when some slot is not free |
| Rules.CheckAccess | packages/validation-manager/src/TracerResultParser.ts:323-436 | one contract's accesses pass if and only if every touched slot is allowed |
| Rules.CheckLevel | packages/validation-manager/src/TracerResultParser.ts:290-520 | an entity's level passes only when all its rules hold, and a reported violation is one |
| Rules.CollectReads | packages/validation-manager/src/TracerResultParser.ts:527-532 | the storage map holds for each contract the reads of the first level that touched it |
| Rules.TracerResultParser | packages/validation-manager/src/TracerResultParser.ts:199-534 | accepts if and only if the order-free rules hold, and any violation it reports is a real one |
| Rules.StakeNeverHurts | packages/validation-manager/src/TracerResultParser.ts:453-485 | raising stakes or unstake delays never turns an accepted operation into a rejected one |
| Rules.StakedAccessExactly | packages/validation-manager/src/TracerResultParser.ts:376-424 | an entity with stake and delay may touch sender, entry point and its own contract, read anything, and write only slots associated with the sender or itself |
| Rules.UnstakedAccessExactly | packages/validation-manager/src/TracerResultParser.ts:376-436 | one without may touch only slots of the sender, and while the account is created only as the account itself with a factory that has stake and delay |
| Rules.AcceptedTouchNeedsStake | packages/validation-manager/src/TracerResultParser.ts:453-485 | whatever else an accepted level touched, its entity has stake at least 1 and unstake delay at least 1 |
| Rules.AcceptedContextNeedsStake | packages/validation-manager/src/TracerResultParser.ts:438-450 | and so has a paymaster whose validation call returns a context |
| Rules.EveryReadReportedExactly | packages/validation-manager/src/TracerResultParser.ts:527-532 | the storage map holds every slot read at any level if and only if, for each contract, later levels read nothing the first level to touch it had not read |
| RulesExamples.AcceptedReadIsLost | packages/validation-manager/src/TracerResultParser.ts:527-532 | an accepted simulation of a sponsored operation, with both calls' frames, whose storage map misses a read of the paymaster's level |
| RulesExamples.SponsorNeedsStakeExactly | packages/validation-manager/src/TracerResultParser.ts:417-459 | a sponsored simulation whose paymaster reads its own storage is accepted if and only if its stake and its delay are at least 1 |
| TracedRules.RunOfCallbacks | packages/validation-manager/src/BundlerCollectorTracer.ts:143-166 | enters and exits between the steps change nothing but calls |
| TracedRules.StopCutsTheRest | packages/validation-manager/src/BundlerCollectorTracer.ts:172-176 | what comes after the stop event changes nothing |
| TracedRules.LevelDecides | packages/validation-manager/src/TracerResultParser.ts:290-520 | a level's rules hold for what was collected if and only if the executed steps obey them |
| TracedRules.CollectedIsView | packages/validation-manager/src/BundlerCollectorTracer.ts:143-343 | what the tracer collected besides the level contents, read off the callbacks: calls, hashed buffers, and which call each level is |
| TracedRules.DecisionIsAboutTheSteps | packages/validation-manager/src/TracerResultParser.ts:237-521 | over every callback sequence on which the tracer does not throw, the checker accepts what was collected if and only if the callbacks up to the stop event obey the rules, which name no collected data |
| TracedExamples.GasBeforeCallerIsAccepted | packages/validation-manager/src/BundlerCollectorTracer.ts:281-285 | an accepted run, callbacks and all, whose account executes GAS followed by CALLER |
| PreVerificationGas.PriceMonotone | packages/sdk/src/calcPreVerificationGas.ts:73-84 | more packed bytes, or more non-zero ones, never cost less |
| PreVerificationGas.DefaultPrice | packages/sdk/src/calcPreVerificationGas.ts:44-85 | with the default overheads the rounded price of whole words is 4 per byte, 12 more per non-zero byte, 39304, and one per eight bytes |
| PreVerificationGas.DefaultPriceRounds | packages/sdk/src/calcPreVerificationGas.ts:73-84 | for any length and bundle size the default price is the calldata cost, 18300, a share of 21000, and an eighth per byte, with 31 bytes more, rounded to the nearest |
| PreVerificationGas.JoinedSize | packages/utils/src/ERC4337Utils.ts:76-104 | length and non-zero bytes of the encoding, split into the gas field, the signature and the rest |
| PreVerificationGas.AcceptedExactly | packages/validation-manager/src/ValidationManager.ts:396-401 | for any signature the check passes if and only if the real fields cost no more than the dummies plus the margin given |
| PreVerificationGas.EstimateExactly | packages/sdk/src/calcPreVerificationGas.ts:56-85 | the estimate in full: 4 and an eighth per byte, 12 more per non-zero byte of fields, offsets, lengths and dummies, and 39304 |
| PreVerificationGas.SmallEstimateAccepted | packages/sdk/src/BaseAccountAPI.ts:317-321 | an estimate below 2^16, written in and signed with at most 65 bytes, passes the check |
| PreVerificationGas.TwelveMoreSuffices | packages/validation-manager/src/ValidationManager.ts:396-401 | for every estimate below 2^24 adding 12 passes the check |
| PreVerificationGas.FullSignatureExactly | packages/validation-manager/src/ValidationManager.ts:396-401 | with 65 non-zero signature bytes the estimate passes its own check if and only if it has at most two non-zero bytes |
| PreVerificationGas.LargeEstimateRefused | packages/validation-manager/src/ValidationManager.ts:396-401 | a concrete operation whose estimate, 65836, is refused |

## Left out

- The JSON-RPC server, configuration, command line, deployment and wallet classes: plumbing around the parts modelled.
- Error texts and debug output; the tracer's `logs`, `debug` and `numberOpcodes` side data.
- The log filter of the RPC handler: what can be proved of it is easier than the properties here.
- Floating-point rounding of `* 1.1` and of the gas price; both are exact here.
- The order and repetition in the list of referenced contracts: `CollectAddresses` gives it as a set.
- `createBundle` joins storage maps as values; the in-place form, with aliasing and the untouched second argument, is `StorageTable.MergeIn`.
- The access maps inside a tracer level are values that the level's methods reassign, not nested mutable objects.
- LiveDeliveriesAccounted: counts live deliveries that come between scans, and `DeliveredWhileAnswering` those that come while a non-empty answer is on its way; a delivery while a query is under way but not yet evaluated takes part in the machine, without an exact count.
- `setBundleInterval` without an argument, which throws, and the debug calls that only dump state.
- Changes of the white and black list while the bundler runs; they are made at start-up.
- A `bundleSize` of zero, for which the original computes an infinite price.
