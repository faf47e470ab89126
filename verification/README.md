# Nullspace: execution, indexing, delivery and rounds, verified

A Dafny model of the stateful core of Nullspace, and proofs about every run of it.

- **Block execution** (`StateTransition.dfy`, `CrashRecovery.dfy`, `BlockEffect.dfy`, `NonceOverlay.dfy`).
  One call executes a block and commits an append-only events log and then a key/value state.
  A run is any sequence of calls, for any heights and blocks, each of which may die after any number of
  durable steps.  Executing a block, the roots and the operation counts of the stores are arbitrary
  functions of their inputs (the fields of `Env`).
- **Explorer index** (`AccountLru.dfy`, `AccountWrap.dfy`, `BlockIndex.dfy`, `BlockRetention.dfy`,
  `BlockMeaning.dfy`, `RoundIndex.dfy`) and **its persistence** (`Persistence.dfy`, `Restart.dfy`, `NodeRestarts.dfy`).
  The maps of accounts, blocks, transactions and rounds under retention, the batching database worker,
  and the index a restart rebuilds.
- **Delivery channels** (`LossyChannel.dfy`, `Mempool.dfy`, `MempoolDelivery.dfy`).  Senders, receivers and
  subscribers as processes whose atomic steps interleave in any order.
- **Global-table rounds** (`RoundScheduler.dfy`, `RoundReplay.dfy`, `ReplayFields.dfy`, `RoundQuery.dfy`).
  The timed phase machine, replay of the event log, and the player histories read from the same log.
- **Bonus allocation** (`Eligibility.dfy`).  Capped claims and integer scaling to a pool.

`Common.dfy` and `Sums.dfy` hold options, 64-bit saturating arithmetic, and sums over sequences.
Operations the program performs in place are methods of classes, each proved equal to a function on
values; the theorems are about those functions.

`dafny verify dfyconfig.toml` verifies the project.

## Where the code does less than it says

For each point the lemmas named give a failing run, and say when the promise holds: exactly when, except for
the last point.

- The mempool promises delivery exactly once and in order (`simulator/src/mempool.rs:207`).  The number
  is taken before the lock, so submissions can enter out of number order.  An entry can then be delivered
  twice or out of order (`DuplicateOutOfOrder`, exactly when: `RepeatsExactly`, `InOrderExactly`) or
  passed over (`GapOutOfOrder`, exactly when: `PassedOverExactly`).  If submissions enter in number order
  the promise holds: `DeliveredInOrder`, `NoGap`, `NothingLeft`.
- A mempool subscriber can wait on an entry that is already there, because it starts to listen after it
  looked: `WakeupCanBeMissed`, `MissedExactly`.
- The lossy receiver can answer end of stream with an item queued, because it pops and then reads the
  closed flag: `EndBeforeDrained`, `EndOfStreamExactly`; with `WholePoll` for an uninterrupted poll.
- A lossy channel of capacity zero is unbounded (`UnboundedAtZero`, `BoundedExactly`); no caller creates
  one (`CapacityOrDefault`).
- Pruning a block forgets a transaction that a later block repeats: `SharedDigestIsLost`, `FoundExactly`,
  `RetainedFoundExactly`.
- Round ids count per game (`execution/src/layer/handlers/casino.rs:2071`), but bets and payouts are
  filed under the first indexed game with their id: `SharedIdRun`, `StoredIsRawExactly`.
- Re-opening a round resets its counters and keeps its stored bets: `ReopenedDisagrees`,
  `AgreementExactly`.
- Bets and payouts of ids with no indexed round are filed under no game and never removed, so retention
  bounds the rounds (`RoundsStayBounded`) and not these: `UnknownUnbounded`, `UnknownStep`, `UnknownOnlyGrows`.
- A replay may be cut at a snapshot only where the commit and the seed have 0 or 32 bytes:
  `SnapshotCutFails`, `SnapshotsCompose`.
- The account index is LRU for 2^64 - 1 touches (`RefinesTrueLru`); its token counter then wraps around,
  and the next compaction can misorder it (`WrapBreaksLru`).

Three more points to know:

- Opening a round keeps the totals of the round before it
  (`execution/src/layer/handlers/casino.rs:2071-2081`), so wager conservation counts what an opening
  carries over.
- With `max_blocks` zero the database keeps one block and the live index none; `RestartEquivalence`
  covers this case too.
- `filter_round_events` keeps the bets of other games with the same round id; the theorems about
  filtered replay and wager conservation hold with these bets counted on both sides.

## Model

| member | source | states |
|---|---|---|
| `Stores.StateDb.Apply` | execution/src/state.rs:60-68 | each key is decided by its last change: an update gives its value, a delete leaves it absent, a key without change is as before; the durable state is untouched |
| `Stores.EventsDb.Restart` | execution/src/state_transition.rs:165-178 | what was appended after the last commit is gone, what was committed stays |
| `StateTransition.RestartStores` | execution/src/state_transition.rs:165-191 | restarting both stores gives the disk that the crash function gives: state as last committed, log cut to its committed length |
| `StateTransition.CountTransactions` | execution/src/state_transition.rs:159-162 | the number of positions that hold a transaction |
| `StateTransition.CheckOutputs` | execution/src/state_transition.rs:243-255 | nothing exactly if every re-executed output is logged; otherwise the location of the first that is not, missing or different |
| `StateTransition.WriteEvents` | execution/src/state_transition.rs:165-178 | the durable steps of the events part, in order, ending in one commit |
| `StateTransition.WriteState` | execution/src/state_transition.rs:180-191 | the durable steps of the state part, in order, ending in one commit |
| `StateTransition.ExecuteStateTransition` | execution/src/state_transition.rs:75-293 | stores and answer of a whole call equal running the planned steps one by one, on every branch: no-op, gap, normal, recovery, mismatch |
| `StateTransition.EventPartSteps` | execution/src/state_transition.rs:165-178 | the event steps add exactly the outputs and one commit naming the height and where the range starts |
| `StateTransition.StatePartSteps` | execution/src/state_transition.rs:180-191 | the state steps write all changes and one commit record |
| `BlockEffect.NoopAnswer` | execution/src/state_transition.rs:110-122 | at or below the state height, on any disk: nothing changes, both answered ranges are empty and sit at the op counts, the roots are those of the unchanged stores, no transactions and no nonces |
| `BlockEffect.ExecutedAnswer` | execution/src/state_transition.rs:139-192 | the next block from level stores: the log gains its outputs and one commit, each key is decided by its last change, and the answer gives roots, both ranges, the number of transactions and the nonces |
| `BlockEffect.RecoveredAnswer` | execution/src/state_transition.rs:193-269 | the same with the events already committed: only the state is written and the answer is about the range there; count and output mismatches are told apart, the latter by the first differing location |
| `BlockEffect.OperationsAddUp` | execution/src/state_transition.rs:180-191 | the op count after a block is the one before plus the operations of each change in turn and of the commit |
| `BlockEffect.UnsoundRefused` | execution/src/state_transition.rs:96-130 | a last commit that is not a mark, and events neither level nor one block ahead, are refused with both stores unchanged |
| `BlockEffect.AnswersCountTheLog` | execution/src/state_transition.rs:159-162 | the number answered for a height is the number of transactions in its answered range, in the log of any later height |
| `CrashRecovery.CrashInFullPlan` | execution/src/state_transition.rs:165-191 | a crash after any number of durable steps leaves one of three disks: nothing, events only, or both; decided by the step count alone |
| `CrashRecovery.CrashInStatePart` | execution/src/state_transition.rs:257-268 | a crash during recovery leaves the disk as it was until the very last step |
| `CrashRecovery.RecoveryAcceptance` | execution/src/state_transition.rs:193-269 | recovery writes the state if and only if re-execution yields exactly the logged range; otherwise it is refused with the error of the branch that failed |
| `CrashRecovery.CallEffect` | execution/src/state_transition.rs:75-293 | everything one call can do to a sound disk, whatever the block and wherever the call dies |
| `CrashRecovery.EffectKeepsSound` | execution/src/state_transition.rs:110-275 | soundness is kept, the log only grows, calls at or below the state height change nothing, the state moves only to the next height |
| `CrashRecovery.HeightSafety` | execution/src/state_transition.rs:110-130 | over every sequence of calls, blocks and crashes the heights applied are 1, 2, 3, ... with none skipped or repeated, and the log stays tiled |
| `CrashRecovery.Refusals` | execution/src/state_transition.rs:110-275 | a call is refused if and only if there is a gap, execution fails, or the logged outputs differ; every refusal leaves both stores unchanged; height mismatch is unreachable |
| `CrashRecovery.CleanShape` | execution/src/state_transition.rs:139-191 | the crash-free run has state and events at height h and one log range per height |
| `CrashRecovery.CrashConvergence` | execution/src/state_transition.rs:89-275 | for every schedule of calls and crashes presenting one block per height, the durable pair is always (S_h, E_h) or (S_h, E_h+1) of the crash-free run |
| `CrashRecovery.NextCallFromConverged` | execution/src/state_transition.rs:139-292 | the next call ends at the crash-free stores with the crash-free answer, from either pair |
| `CrashRecovery.RecoveryIsIndistinguishable` | execution/src/state_transition.rs:139-292 | after any schedule, the call for the next height gives the crash-free stores, roots, op ranges, count and nonces, or fails only because that block fails to execute |
| `CrashRecovery.CatchUp` | execution/src/state_transition.rs:89-275 | from any reached disk, presenting the remaining blocks ends at exactly the crash-free stores |
| `CrashRecovery.AnswersTileTheLog` | execution/src/state_transition.rs:277-292 | the answered event ranges of successive heights are adjacent, and in any later log each holds that block's outputs plus one commit |
| `NonceOverlay.Memory.Apply` | execution/src/state.rs:60-68 | the state after the changes in list order |
| `NonceOverlay.Noncer.Get` | execution/src/state.rs:209-216 | the pending entry if there is one, else the base |
| `NonceOverlay.Noncer.PrepareTransaction` | execution/src/state.rs:193-207 | accepts, refuses with expected and got, or overflows; only acceptance changes the overlay |
| `NonceOverlay.OverlayNonce` | execution/src/state.rs:155-178 | the nonce read through the overlay is the base nonce plus the number accepted for the key, and no other field of the account changes |
| `NonceOverlay.NonceAcceptance` | execution/src/state.rs:166-207 | over any list, a transaction is accepted exactly when its nonce is the base nonce plus the number already accepted for its key, short of the last nonce |
| `NonceOverlay.FirstNonce` | execution/src/state.rs:159-178 | an account that is not in the base starts at nonce 0, and reads nonce 1 once that transaction was accepted |
| `NonceOverlay.OverlayEqualsApplied` | execution/src/state.rs:209-227 | reading through the overlay equals reading the base after applying the pending changes, in any order of the map |
| `NonceOverlay.CommitEqualsDirect` | execution/src/state.rs:60-68 | buffering any inserts and deletes and applying the collapsed map equals performing them one by one |
| `Recency.KeptExactly` | simulator/src/explorer.rs:265-277 | the most-recent set is determined by the touches: a key is in it if and only if fewer than max other keys were touched since |
| `AccountLru.SortByToken` | simulator/src/explorer.rs:235-245 | all live tokens, each once, in ascending order |
| `AccountLru.FrontIsOldest` | simulator/src/explorer.rs:265-277 | a front entry that is not stale belongs to the least recently touched tracked key |
| `AccountLru.EvictKeeps` | simulator/src/explorer.rs:265-277 | eviction through stale entries ends with exactly min(max, touched) accounts and keeps every invariant of the queue |
| `AccountLru.CompactSound` | simulator/src/explorer.rs:229-245 | compaction keeps accounts, counter and invariants, and brings the queue within max(2*max, 1) |
| `AccountLru.TouchKeeps` | simulator/src/explorer.rs:205-215 | after one touch the tracked accounts are the max most recently touched, and no other account's activity changed |
| `AccountActivity.RefinesTrueLru` | simulator/src/explorer.rs:205-291 | lazy tokens refine true LRU over every run from empty: membership is decided by recency alone, live tokens are queued in order, and the queue is bounded |
| `AccountWrap.WrapBreaksLru` | simulator/src/explorer.rs:209-211 | a run from empty, three touches past the last token, after which the more recent of two accounts has been evicted: the bound on the number of touches is needed |
| `AccountActivity.AccountIndex.EnforceRetention` | simulator/src/explorer.rs:265-277 | the loop of pops equals the eviction function |
| `AccountActivity.AccountIndex.Compact` | simulator/src/explorer.rs:229-245 | the queue is rebuilt from the live tokens if it was over its limit, else unchanged |
| `AccountActivity.AccountIndex.TouchAccount` | simulator/src/explorer.rs:388-404 | one touch of the index, which keeps describing all touches so far |
| `BlockMaps.InsertDescribes` | simulator/src/explorer.rs:838-911 | indexing a new height keeps the five maps in agreement |
| `BlockMaps.RemoveDescribes` | simulator/src/explorer.rs:185-203 | pruning a height keeps the five maps in agreement |
| `BlockMaps.Determined` | simulator/src/explorer.rs:827-913 | agreeing maps are determined by the kept blocks and the parent links |
| `BlockMaps.PruneKeepsTxsExactly` | simulator/src/explorer.rs:185-203 | with digests shared between heights: if every transaction of the kept blocks can be found, pruning one leaves those of the others findable if and only if none repeats a digest of the pruned block |
| `BlockRetention.RetainedAreGreatest` | simulator/src/explorer.rs:185-203 | for any order of heights, the retained ones are the max greatest ever presented |
| `BlockRetention.RetainedExactly` | simulator/src/explorer.rs:185-203 | a height is retained if and only if it was presented and fewer than max presented heights are above it |
| `BlockRetention.IndexAgrees` | simulator/src/explorer.rs:827-913 | for any order and repetition of blocks with digests not shared between heights, the five maps describe exactly the retained blocks after every call |
| `BlockRetention.SharedDigestIsLost` | simulator/src/explorer.rs:196-200 | a transaction digest at two heights: after the first is pruned the second block lists a transaction that cannot be found |
| `TxLookup.PruneLookup` | simulator/src/explorer.rs:185-203 | pruning makes exactly the transactions listed by a pruned block disappear and leaves every other lookup as it was |
| `TxLookup.FoundExactly` | simulator/src/explorer.rs:827-913 | over any run, whatever digests blocks share, a transaction is found if and only if a block listing it was indexed and none listing it was pruned from the last such call on; what is found is that block's entry |
| `TxLookup.RetainedFoundExactly` | simulator/src/explorer.rs:185-203 | a digest of a retained block is found if and only if no block listing it was pruned since one listing it was last indexed |
| `BlockMeaning.FoundEntry` | simulator/src/explorer.rs:849-868 | over any run, a transaction that is found has its own digest, the height and digest of the block indexed last that lists it, the position of its last operation there, and that operation's key and nonce |
| `BlockMeaning.DigestsInOrder` | simulator/src/explorer.rs:845-856 | a block lists the digests of its transactions, one for each, in order |
| `BlockMeaning.RetainedBlock` | simulator/src/explorer.rs:838-898 | over any run, a retained block has the height, view, digest and time presented when it was indexed, its digests in order with their number, and a link to the block below if that one was indexed then |
| `BlockRetention.ExplorerIndex.EnforceBlockRetention` | simulator/src/explorer.rs:185-203 | the loop equals the pruning function on all five maps |
| `BlockRetention.ExplorerIndex.IndexTransactions` | simulator/src/explorer.rs:849-888 | digests in order, and an entry per digest where a repeated digest keeps the last |
| `BlockRetention.ExplorerIndex.ApplyBlockIndexing` | simulator/src/explorer.rs:827-913 | applied exactly when the height is not indexed; the maps stay those of all blocks presented |
| `BlockTables.WrittenHolds` | simulator/src/explorer_persistence.rs:345-364 | upserting a block replaces its row and all its operations and touches no other height |
| `BlockTables.PrunedHolds` | simulator/src/explorer_persistence.rs:254-270 | pruning deletes exactly the rows and operations below the height |
| `BlockTables.LoadBlockOf` | simulator/src/explorer_persistence.rs:327-343 | reading a height back gives the block written, operations in order |
| `Chain.LoadWindow` | simulator/src/explorer_persistence.rs:272-325 | the descending limited query, reversed, gives the newest blocks oldest first |
| `Restart.LatestHeight` | simulator/src/explorer_persistence.rs:580-581 | the greatest height of the batch |
| `Restart.Database.PersistBlocks` | simulator/src/explorer_persistence.rs:345-364 | the blocks written in order, in both tables |
| `Restart.CollectBatch` | simulator/src/explorer_persistence.rs:555-569 | a non-empty consecutive run of the waiting requests, at most the batch size |
| `Restart.BatchKeeps` | simulator/src/explorer_persistence.rs:554-602 | after a batch the database holds exactly the last max(limit, 1) blocks; skipping an unmoved pruning height changes nothing |
| `Restart.ProcessBatch` | simulator/src/explorer_persistence.rs:554-602 | one batch written and pruned keeps that window, and the remembered height is the new one |
| `Restart.PersistenceWorker` | simulator/src/explorer_persistence.rs:521-603 | whatever the batches, the worker ends with exactly the last max(limit, 1) of all blocks written |
| `Restart.LoadsNewest` | simulator/src/explorer_persistence.rs:45-74 | after any run of the worker the loader reads back exactly the newest limit blocks in order |
| `Restart.LiveDescribes` | simulator/src/explorer.rs:827-913 | the live index over contiguous heights describes the last limit blocks |
| `Restart.LiveLinks` | simulator/src/explorer.rs:838-843 | every live block links to the block below it except the first ever indexed |
| `Restart.RestartEquivalence` | simulator/src/explorer_persistence.rs:45-74 | the index rebuilt from the database equals the live one in all five maps except that the oldest retained block has no parent link; with a zero limit both are empty |
| `Restart.RestartIsExact` | simulator/src/explorer_persistence.rs:45-74 | while nothing has been pruned the rebuilt index is the live one |
| `NodeRestarts.RebootPersists` | simulator/src/explorer_persistence.rs:45-74 | the pruning at a restart removes nothing that the worker would have kept |
| `NodeRestarts.AnyRestarts` | simulator/src/explorer_persistence.rs:45-74 | over any run of batches with any number of restarts between them, the index is that of a node that never restarted, except for the parent link of the oldest retained block while it is the one the last restart began with |
| `RoundIndexing.BetsInStep` | simulator/src/explorer.rs:552-600 | accepted bets move counters and stored bets of every indexed round together |
| `RoundIndexing.EventInStep` | simulator/src/explorer.rs:498-637 | every event but an opening keeps the difference between counters and stored entries, for every indexed round |
| `RoundIndexing.OpeningAgreesExactly` | simulator/src/explorer.rs:498-524 | an opened round agrees with what is stored for it if and only if no bets are stored and stored payouts cancel |
| `RoundIndexing.EnforceExactly` | simulator/src/explorer.rs:293-308 | retention drops the heights below a cut with exactly the rounds listed there, and no lower cut would do |
| `RoundIndexRuns.RoundsStayBounded` | simulator/src/explorer.rs:293-308 | from empty, at most max_rounds rounds are indexed after every event of every log |
| `RoundStorage.StoredKeys` | simulator/src/explorer.rs:293-308 | in every run the stored bets and payouts belong to indexed rounds, or to ids filed under no game |
| `RoundStorage.UnknownStep` | simulator/src/explorer.rs:559-637 | what is filed under no game changes only by bets and payouts of ids with no indexed round, added at the end |
| `RoundStorage.UnknownOnlyGrows` | simulator/src/explorer.rs:293-308 | retention never removes what is filed under no game, over any run |
| `RoundStorage.UnknownUnbounded` | simulator/src/explorer.rs:559-585 | for every n and every limit, n bets of an id that never opens leave no round indexed and n bets stored |
| `RoundIndexRuns.AgreementExactly` | simulator/src/explorer.rs:498-637 | over any log, an indexed round's counters agree with its stored bets and payouts if and only if its last opening found none stored (payouts: none or cancelling) |
| `RoundIndexRuns.CountersAgree` | simulator/src/explorer.rs:498-637 | with each round opened once, bet_count, player_count, total_bet_amount and total_payout_amount agree with the stored entries at every point |
| `RoundIndexRuns.StoredIsRawExactly` | simulator/src/explorer.rs:552-637 | the stored entries are those of the raw events since the opening, in order, if and only if none came while an earlier-named game had a round of the same id indexed |
| `RoundIndexRuns.SharedIdIsMisfiled` | simulator/src/explorer.rs:559-566 | with one round id in two indexed games, the later-named game's round never receives a bet or payout |
| `RoundIndexRuns.GameOfExactly` | simulator/src/explorer.rs:559-566 | the first game found for an indexed round's id is another one if and only if a game earlier in key order has that id indexed |
| `RoundStorage.ReopenedDisagrees` | simulator/src/explorer.rs:498-524 | a log that opens a round, bets and opens it again: no bets counted, all of them stored |
| `RoundStorage.SharedIdRun` | simulator/src/explorer.rs:559-585 | a log that opens one id in two games and bets: the bets are stored for the earlier-named game, none for the other |
| `RoundIndexRuns.RoundIndexIsRaw` | simulator/src/explorer.rs:498-637 | with rounds opened once and ids not shared, the four counters are the counts and sums over the raw events since the opening |
| `RoundStatus.StatusIsRaw` | simulator/src/explorer.rs:498-551 | the phase, dice and four heights of an indexed round are those of its last opening and the last lock, outcome and finalization since |
| `RoundIndex.ExplorerRounds.EnforceRoundRetention` | simulator/src/explorer.rs:293-308 | the loops equal the retention function on all four maps |
| `RoundIndex.ExplorerRounds.RecordBets` | simulator/src/explorer.rs:552-600 | bets appended in order under the first game found, counters of that round updated |
| `RoundIndex.ExplorerRounds.RecordEvent` | simulator/src/explorer.rs:498-637 | the four maps after one event of any kind |
| `RoundStats.ComputeAggregatedStats` | simulator/src/explorer.rs:1708-1763 | integer totals and players over exactly the selected finalized rounds |
| `StatsMeaning.ChosenExactly` | simulator/src/explorer.rs:1721-1744 | the rounds that count are exactly the finalized ones of the game and heights asked for, each once |
| `StatsMeaning.StatsAreSums` | simulator/src/explorer.rs:1746-1763 | volume, payouts, bets and profitable rounds are sums over the rounds that count, and the players are those with a stored bet in one of them |
| `RoundStats.BreakdownAddsUp` | simulator/src/explorer.rs:1922-1940 | overall totals equal the per-game breakdown added up, games without rounds left out, and the players are the union |
| `LossyRuns.NoLostWakeup` | client/src/events.rs:91-108 | in every interleaving, a receiver parked with no wake delivered or owed has an empty queue and an open channel |
| `LossyRuns.QueueConservation` | client/src/events.rs:53-89 | what was pushed is split into received, dropped-oldest and still queued; the queue is the tail of the pushes, within a capacity of at least one |
| `LossyRuns.DropsExactly` | client/src/events.rs:60-68 | a step drops an item if and only if it queues one while exactly `capacity` (at least one) are queued, and the item is the oldest |
| `LossyRuns.NothingDropped` | client/src/events.rs:53-89 | nothing is dropped in a run in which never more than `capacity` pushed items were unreceived |
| `LossyRuns.AnswersKeepOrder` | client/src/events.rs:80-89 | the answers are exactly the received items, in push order |
| `LossyRuns.EndOfStreamExactly` | client/src/events.rs:91-108 | end of stream means closed, and drained if and only if nothing was queued since the receiver last looked |
| `LossyRuns.EndBeforeDrained` | client/src/events.rs:91-97 | a run with one sender, which pushes and then closes, in which end of stream is answered with the item still queued |
| `LossyRuns.WholePoll` | client/src/events.rs:91-108 | an uninterrupted poll answers the front item, end of stream only when drained, or parks with its waker registered |
| `LossyRuns.BoundedExactly` | client/src/events.rs:53-71 | the queue stays within its capacity in every run if and only if the capacity is not zero |
| `LossyChannel.CapacityOrDefault` | client/src/events.rs:160-166 | the capacity used is never zero |
| `LossyChannel.Channel.Push` | client/src/events.rs:53-71 | the item is appended, and the oldest dropped only if the queue is full; one wake; refused without effect once closed; the same as the sender's steps run in a row |
| `LossyChannel.Channel.Close` | client/src/events.rs:73-76 | closed, queue kept, receiver woken; the same as the sender's steps run in a row |
| `LossyChannel.Channel.PopFront` | client/src/events.rs:80-89 | the front item removed, if any |
| `LossyChannel.Channel.PollRecv` | client/src/events.rs:91-108 | front item, end of stream, or pending with the waker registered; the same as the receiver's steps run in a row |
| `MempoolRuns.LiveDeliveriesRise` | simulator/src/mempool.rs:208-246 | live deliveries strictly increase in sequence number under any interleaving |
| `MempoolRuns.DeliveredInOrder` | simulator/src/mempool.rs:107-159 | if submissions enter in number order, replayed and live deliveries together strictly increase and are the entries as submitted |
| `MempoolRuns.NoGap` | simulator/src/mempool.rs:208-246 | then every entry from subscription up to the last delivered was delivered, or was trimmed or has expired |
| `MempoolRuns.DuplicateOutOfOrder` | simulator/src/mempool.rs:107-135 | entering out of order, a replayed entry is delivered twice |
| `MempoolRepeats.RepeatsExactly` | simulator/src/mempool.rs:139-159 | after any run, in any order of submissions: no continuation of a subscription delivers an entry twice if and only if no buffered entry that was not stale outnumbered the last buffered one when it began |
| `MempoolRepeats.InOrderExactly` | simulator/src/mempool.rs:139-159 | after any run, in any order of submissions: every continuation of a subscription delivers in strictly rising order of number if and only if the buffer was in that order when it began |
| `MempoolGaps.PassedOverExactly` | simulator/src/mempool.rs:215-233 | over every run, when a receive would find nothing: an entry that entered after the subscription and can still be delivered was not delivered if and only if a larger number was seen from an earlier position |
| `MempoolGaps.NothingLeft` | simulator/src/mempool.rs:208-246 | if submissions enter in number order, when a receive would find nothing every entry since the subscription was delivered, or was trimmed or has expired |
| `MempoolGaps.KeptWhileRecent` | simulator/src/mempool.rs:118-131 | in every run an entry with timestamp + window >= now and fewer than max_replay_size entries after it is still buffered |
| `MempoolGaps.RecentIsDelivered` | simulator/src/mempool.rs:208-246 | if submissions enter in number order: once a receive finds nothing, every such entry since the subscription has been delivered |
| `MempoolGaps.GapOutOfOrder` | simulator/src/mempool.rs:215-233 | a run from the start in which a buffered entry that is not stale is passed over |
| `MempoolRuns.MissedExactly` | simulator/src/mempool.rs:208-246 | a waiting subscriber with no notification to come has an entry to receive if and only if a deliverable one came in between its look and its wait |
| `MempoolRuns.WakeupCanBeMissed` | simulator/src/mempool.rs:208-246 | a run that ends with such an entry |
| `Mempool.BufferedMempool.Submit` | simulator/src/mempool.rs:107-135 | numbered and appended; entries leave from the front only, and one leaves exactly if it and all before it have timestamp + window < now or at least max_replay_size entries follow it |
| `Mempool.BufferedMempool.Subscribe` | simulator/src/mempool.rs:139-159 | the replay is the buffer and the last seen number that of its last entry |
| `Mempool.Subscriber.TryRecv` | simulator/src/mempool.rs:208-246 | the next replayed entry, or the first buffered one with timestamp + window >= now and a number not seen yet, or nothing if there is none |
| `RoundScheduler.ViewRoundTrip` | execution/src/round_scheduler.rs:303-311 | a view survives the trip through milliseconds if and only if its product does not saturate |
| `RoundScheduler.ViewIsSecond` | execution/src/round_scheduler.rs:303-311 | a view is 1000 ms up to saturation, and milliseconds round down to views |
| `RoundScheduler.PossibleExactly` | execution/src/round_scheduler.rs:213-288 | in a started round, phase by phase, exactly what is possible before and from the end time |
| `RoundScheduler.StepTimes` | execution/src/round_scheduler.rs:97-113 | each step enters its phase for that phase's configured time, and the total is the sum of the four, saturated |
| `RoundScheduler.ChecksRefineSteps` | execution/src/round_scheduler.rs:180-288 | automatic transitions equal the guarded explicit steps with their own timing; Rolling takes no time |
| `RoundScheduler.AtMostOneEnabled` | execution/src/round_scheduler.rs:213-288 | in a started round at most one of betting, lock, reveal, finalize and new round is possible at any instant |
| `RoundScheduler.PollOnTime` | execution/src/round_scheduler.rs:165-205 | a poll keeps the phase or moves to the next in the cycle, on time; or closes the round within its bounds |
| `RoundScheduler.RoundDuration` | execution/src/round_scheduler.rs:97-113 | a round lasts at least the configured total and at most that plus one polling interval per transition |
| `RoundScheduler.RoundEnds` | execution/src/round_scheduler.rs:180-205 | polled long enough, a round gives way to the next |
| `RoundEvents.AccumulateBets` | execution/src/round_replay.rs:281-296 | the totals after all bets in order |
| `RoundEvents.TotalsAreSums` | execution/src/round_replay.rs:281-296 | each key once, present exactly if it was there or bet on, with the saturated sum of all its bets |
| `RoundEvents.TotalsInOrder` | execution/src/round_replay.rs:281-296 | keys that were there keep their places and new ones follow in the order in which they were first bet on |
| `RoundEvents.TotalsIgnoreOrder` | execution/src/round_replay.rs:281-296 | bets in any order leave the same totals |
| `RoundEvents.WageredIsConserved` | execution/src/round_replay.rs:281-296 | without saturation the grand total grows by exactly what was bet |
| `RoundTotals.ReplayAccumulates` | execution/src/round_replay.rs:158-296 | in any replay that succeeds the totals are those of the last opening with all bets accepted since added in order |
| `RoundTotals.ReplayedAreSums` | execution/src/round_replay.rs:158-296 | replayed totals hold each key once, present exactly if opened with or bet on, with the saturated sum of all its bets over the log |
| `RoundTotals.ReplayedIgnoreOrder` | execution/src/round_replay.rs:158-337 | two logs of a round that accept the same bets, in any order of events and players, replay to the same amount and presence of every key |
| `RoundReplay.ReplayRoundFromEvents` | execution/src/round_replay.rs:158-170 | the round after all events or the first error |
| `ReplayFields.ReplayedFields` | execution/src/round_replay.rs:173-278 | in every replay that succeeds: phase and end time are those of the last lock, outcome or finalization since the opening, dice, seed and points those of the last outcome, the rest as opened |
| `ReplayFields.ReplaysExactly` | execution/src/round_replay.rs:158-278 | a replay succeeds if and only if every event is about the round opened last before it; otherwise it fails with what is wrong with the first that is not |
| `RoundReplay.SnapshotFields` | execution/src/round_replay.rs:87-104 | a snapshot holds each field of the round under its own name |
| `RoundReplay.SnapshotRoundTrip` | execution/src/round_replay.rs:87-122 | rounds and snapshots convert to each other without loss |
| `RoundReplay.SnapshotsCompose` | execution/src/round_replay.rs:87-170 | cutting a replay at a snapshot changes nothing, errors included, if and only if it fails before the cut or the round there has a commit and seed of 0 or 32 bytes |
| `RoundReplay.SnapshotCutFails` | execution/src/round_replay.rs:125-170 | a log that replays whole but not across a snapshot: a round opened with a one-byte commit |
| `RoundReplay.WellFormedCompose` | execution/src/round_replay.rs:158-278 | with well-formed events every cut is harmless |
| `RoundReplay.FilterExactly` | execution/src/round_replay.rs:302-337 | the filter keeps exactly the events that speak of the round id, and of no other game, in order |
| `RoundReplay.FilteredReplaySucceeds` | execution/src/round_replay.rs:302-337 | from a valid snapshot, replaying any log filtered for its round succeeds and stays in the round |
| `RoundReplay.FilteredReplayNonInterfering` | execution/src/round_replay.rs:302-337 | events of other round ids, interleaved anyhow, do not change the result |
| `RoundQuery.SumRecords` | execution/src/round_query.rs:307-313 | wagered and net over all records |
| `RoundQuery.QueryPlayerHistory` | execution/src/round_query.rs:247-330 | the records of one player in order of first mention, with their sums |
| `RoundQuery.QueryPlayerHistoryRange` | execution/src/round_query.rs:339-364 | the records of the range with sums of their own |
| `RoundQuery.RangesAddUp` | execution/src/round_query.rs:339-364 | adjacent ranges add up to the whole |
| `RoundQuery.HistoryRecordsExactly` | execution/src/round_query.rs:247-330 | each round is recorded once, and what is recorded as bet is what the log says was bet plus what an early settlement lists |
| `RoundQuery.RecordExactly` | execution/src/round_query.rs:252-300 | a record holds the bets of the player's own events in the round in order, the payout of the last settlement and the balances of the last event; there is one exactly if there is such an event |
| `RoundQuery.RecordsInOrder` | execution/src/round_query.rs:252-300 | a history lists its rounds in the order of the player's first event in each |
| `RoundQuery.WithinExactly` | execution/src/round_query.rs:348-352 | a range keeps exactly the records with low <= id <= high, in order |
| `RoundQuery.PlayersAddUp` | execution/src/round_query.rs:247-330 | the bets of distinct players add up to all bets of the round |
| `RoundQuery.ReplayedTotals` | execution/src/round_replay.rs:173-296 | replayed totals of a round opened once add up to what the opening carried over plus the bets placed |
| `RoundQuery.WagerConservation` | execution/src/round_query.rs:127-135 | the replayed totals of a round add up to what its opening carried over plus the bets its players' histories record for it |
| `Eligibility.ClaimIsCappedSum` | evm/scripts/buildEligibilitySnapshot.js:104-131 | each address ends with the smaller of its cap and the sum of its valid bids, and is listed only if positive |
| `Eligibility.ClaimMeaning` | evm/scripts/buildEligibilitySnapshot.js:119-130 | without linked credits an address claims all its valid bids; with them no more than its own credits, and nothing without any |
| `Eligibility.ClaimsIgnoreOrder` | evm/scripts/buildEligibilitySnapshot.js:104-131 | the claims do not depend on the order of the bids |
| `Eligibility.CollectClaims` | evm/scripts/buildEligibilitySnapshot.js:104-136 | the claim map, with each address listed once, in the order in which they first claimed |
| `Eligibility.ScaledSum` | evm/scripts/buildEligibilitySnapshot.js:142-148 | scaling n claims loses by rounding less than one unit each |
| `Eligibility.ScaledFromOriginals` | evm/scripts/buildEligibilitySnapshot.js:143-148 | every kept claim is an original scaled to a positive amount no larger |
| `Eligibility.ScaledExactly` | evm/scripts/buildEligibilitySnapshot.js:143-148 | what is left are the claims that are positive once scaled and rounded down, each for its own address, in order |
| `Eligibility.PoolBound` | evm/scripts/buildEligibilitySnapshot.js:138-150 | scaled claims never exceed the pool, and fall short of it by less than n + T / 1,000,000 |
| `Eligibility.ScalingKeepsOrder` | evm/scripts/buildEligibilitySnapshot.js:143-147 | a larger claim is never scaled below a smaller one |
| `Eligibility.BuildClaims` | evm/scripts/buildEligibilitySnapshot.js:104-154 | the claims unchanged if they fit the pool or there is none, else scaled; an error when none is left; total within the pool and each claim within its cap |

## Left out

- Executing transactions (`Layer`), the casino games, the codecs, the Merkle structures of the stores and
  the root computations: arbitrary functions here.
- Read and write errors of the two stores, and their intermediate `sync` calls: a commit is atomic and
  what is not committed is lost on restart.
- AccountActivity.RefinesTrueLru: is stated for the first 2^64 - 1 touches, because the property fails once
  the token counter has wrapped around (WrapBreaksLru).
- AccountLru.TouchKeeps: is stated for a counter that has not reached its last value, for the same reason.
- AccountActivity.AccountIndex.TouchAccount: covers the first 2^64 - 1 touches, for the same reason.
- BlockRetention.ExplorerIndex.ApplyBlockIndexing: indexes the block and its transactions; the accounts
  touched and events recorded by the same call are modelled by AccountIndex and ExplorerRounds on their own.
- RoundIndex.ExplorerRounds.RecordEvent: updates the round maps; the accounts touched by the same events are
  modelled by AccountIndex on its own.
- Restart.PersistenceWorker: takes blocks of consecutive heights in order, as the chain presents them.
- Restart.ProcessBatch: takes the next consecutive heights, for the same reason.
- RoundStats.ComputeAggregatedStats: leaves out the floating-point fields, and compares game names exactly.
- The per-account lists of recent transactions and events, and the second copy of the LRU code for game
  events, which is the same code on other fields; of an account's activity only the height is modelled.
- The description and instruction text of an indexed transaction.
- Account activity when a pruned block is indexed again.
- Database write failures, dropped persistence requests under backpressure, the Postgres dialect and its
  64-bit signed limits.
- RoundIndexRuns.StoredIsRawExactly: takes the key order of game names as the order of the game numbers;
  only which game comes first depends on it.
- Overflow of counters and sums, which stops the program (overflow checks are on): the index counters,
  player histories and aggregated totals are unbounded integers here.  Saturating arithmetic is modelled
  where the source uses it.
- Mempool.Subscriber.TryRecv: one pass of the receive loop; waiting and notification are steps of the
  interleaving model, which has one subscriber.
- Atomics, locks and wakers finer than one atomic step each; the subscriber count.
- Round status queries and the list of a player's round ids, which only project fields.
- Parsing of addresses and numbers, the building of the credit map, and the Merkle tree of the claims.
- HTTP handlers, caching, streaming, configuration, metrics, gateways, clients and contracts.
