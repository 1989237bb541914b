# Verified model of the Firehose EVM tracer

The tracer turns a live stream of EVM hook calls into one ordered trace per block. This project models its four
hard components in Dafny 4.11 and proves properties of them:

- the lifecycle of blocks, transactions, calls and system calls, with the shared ordinal counter, deferred changes,
  SELFDESTRUCT pairs, interruption, isolated tracers with commits, and flash-block snapshots (`tracer.go`,
  `callstack.go`, `deferred_call_state.go`, `ordinal.go`);
- the KECCAK256 preimage filter (`keccak_filter.go`);
- transaction completion: sorting, revert propagation, receipt and log pairing, EIP-7702 authorizations (`tracer.go`);
- the output pipeline: bounded queue with one worker, and the short-write retry loop (`concurrency.go`,
  `tracer_printer.go`).

`dafny verify dfyconfig.toml` checks everything.

## How it is built

There are two layers, tied together by proof, and an independent reading of the hook calls that both are held against.

1. A state machine on values. `Model` has the records, `Machine` one function per hook with panics as failed steps,
   `Completion` what completing a transaction computes, `Steps` the steps case by case, `World` a coordinator with the
   isolated tracers it spawned.
   The theorems are about runs of this machine, over every event sequence unless a well-formedness condition is named:
   the depth argument of an entry is the number of open calls, no call is open at the end of a transaction, and
   nothing is interleaved within a commit.
2. Objects, as in the source. `Objects` has the counter, calls, call stack, deferred state, transactions and blocks;
   `CallLoops`, `Preimages` and `Completing` the in-place loops; `WorkObjects` and `Tracing` the tracer whose hooks
   update its fields. Each object has a view, and each hook is proved to panic exactly when the machine's step does
   and otherwise to take the view where the step goes. `Replay` lifts this to whole runs of one tracer, `ReplayWorld`
   to whole runs of a coordinator and the tracers it spawned. What depends on aliasing is
   proved here: the objects set aside during a system call come back unharmed, a commit shifts every ordinal of a
   shared transaction once, and a snapshot that is only a reference and four lengths stays what it was.

`Reading` says what hook calls tell of a transaction without referring to how the tracer computes it: opcodes, error
messages, sizes and distances are written out, and each predicate is about the arguments of the hooks. `Told`,
`Outcome`, `SystemCalls` and `Hooks` prove that completed transactions, filed system calls and single steps say exactly
that.

| modules | subject |
|---|---|
| `Bytes`, `KeccakFilter`, `Preimages` | byte order, bounded reachability and the search that computes it, attachment |
| `Relabel`, `Ranges`, `Streams`, `Programs`, `Parallel` | renaming ordinals; parallel equals sequential |
| `LeftPreimages`, `Retry` | resets, what they leave over, and parallel tracing with retries |
| `Interruption` | system calls inside a transaction |
| `Forest`, `Balance`, `Outline`, `Nesting`, `Trees`, `RoundTrip` | call forests, intervals, reverts, the round trip |
| `Counts`, `OrdinalSafety`, `IsolatedSystemCall` | ordinals over whole runs, and the case that breaks them |
| `Receipts`, `Authorizations` | receipt logs, EIP-7702 authorizations |
| `Reading`, `Told`, `Outcome`, `SystemCalls`, `Hooks` | what hook calls say, and that the trace says the same |
| `Blocks`, `FlashRuns`, `Queue` | independence of blocks, flash blocks over whole runs, the output pipeline |
| `Genesis`, `GenesisBlock`, `GenesisHook` | the genesis block |

Some statements that one might expect are false of the code, and are proved as such with their exact condition:
parallel and sequential tracing differ exactly when a transaction is dropped; flash indexes are checked only against
the snapshot that stands, so they go back when none was taken; and a block records ordinal zero exactly when a
transaction is ended while a system call is running. A reset makes a tracer as new exactly when the attempts before
it leave no preimage over (they do when a call hashes and no transaction with a call is completed after that);
otherwise some transaction traced next shows it. And an isolated tracer that runs a system call makes the block record
an ordinal twice exactly when the coordinator's counter reaches one of the call's own.

Where the code and its documentation disagree, the code is followed: the comment at `keccak_filter.go:42-49` keeps a
preimage whose hash lies less than 2^64 below a key, while the search at `keccak_filter.go:139-147` looks only at the
nearest hash at or below it.

## Model

| member | source | states |
|---|---|---|
| `Parallel.ParallelEqualsSequential` | tracer.go:1078-1127 | For every program of transactions with arbitrary bodies and of the coordinator's own changes and system calls between them, and every interleaving of spawned tracers with it, committing in order panics exactly when doing everything on the coordinator does. Otherwise both add the same to the block up to an order-keeping renaming of ordinals that fixes those used before, and end in the same state, block and ordinal counter included, if and only if no transaction is dropped for want of a receipt |
| `Programs.SequentialEqualsMerged` | tracer.go:882-910 | Tracing transactions on the coordinator and committing traces made from zero, with the coordinator's own changes and system calls in between, succeed or panic together and differ by an order-keeping renaming of ordinals, which is none exactly when nothing is dropped (a drop uses up ordinals on the coordinator only) |
| `Programs.ProgramsCompared` | tracer.go:882-910 | The same from any two coordinators that already differ by such a renaming; one dropped transaction more moves the counters apart |
| `Streams.TraceShifts` | tracer.go:2096-2120 | Tracing a transaction from ordinal base is tracing it from zero and adding base to every ordinal, panics included |
| `Streams.CoordinatorRun` | tracer.go:709-910 | A transaction on an idle coordinator appends its trace from the current counter and leaves the coordinator idle |
| `Streams.IsolatedRun` | tracer.go:882-910 | A transaction on a spawned tracer ends with its trace from zero waiting for the commit, or with the drop mark |
| `Parallel.BlockIndependent` | tracer.go:967-994 | An isolated tracer's transaction events neither read nor change the contents of the shared block |
| `LeftPreimages.ResetIsFresh` | tracer.go:1015-1042 | A reset makes an isolated tracer as new exactly when no preimage is left over and no system call was under way |
| `LeftPreimages.ResetIsInvisible` | tracer.go:1015-1042 | After any attempt, with resets and ended transactions in it, and its reset: every transaction is then committed as from a fresh tracer if and only if the attempt leaves no preimage, which its events tell (a short enough one hashed, and no transaction with a call completed after it) |
| `LeftPreimages.EndedLeavesNothing` | tracer.go:1157-1167 | An attempt whose transaction had a call and was completed leaves no preimage, whatever it hashed |
| `LeftPreimages.DiffersInPreimages` | tracer.go:1015-1042 | Whatever is left over, a transaction traced after the reset succeeds or panics as on a fresh tracer and differs at most in the preimages of its calls |
| `LeftPreimages.LeftoverShows` | keccak_filter.go:68-135 | A preimage left over from call k shows in call k of every transaction that has such a call and writes its hash as a slot, in whichever call |
| `LeftPreimages.CompleteBare` | tracer.go:1130-1207 | Which preimages were recorded neither decides whether a transaction completes nor shows anywhere but in the preimages of its calls |
| `Retry.RetriesInvisible` | tracer.go:1015-1127 | Parallel tracing with any number of retries, of whatever transactions abandoned at whatever point or even ended, equals sequential tracing in the same sense, as long as no abandoned event panics and no preimage is left over at a tracer's last reset |
| `Retry.EraseRun` | tracer.go:1015-1042 | Under the same condition any schedule and the one without its abandoned attempts panic together or lead to the same coordinator |
| `Relabel.RunBy` | tracer.go:1390-1887 | Renaming ordinals in the starting state renames them in the outcome of any event sequence: tracing depends on ordinals only through their order |
| `Relabel.CompleteBy` | tracer.go:1130-1207 | Completion commutes with every order-keeping renaming of ordinals, sorting, log pairing and panics included |
| `Interruption.SystemCallRestores` | tracer.go:1739-1825 | From any state inside a transaction, a system call succeeds exactly when its body does and leaves no log or storage change without a call; it then restores transaction, call stack, deferred changes, log index, preimages and SELFDESTRUCT flag, only the counter advances and the block gains the calls of the body |
| `Interruption.InterruptionInvisible` | tracer.go:1739-1825 | A transaction with system calls anywhere inside it ends as the one without them, under an order-keeping renaming of its ordinals that fixes those used before; besides it the block only gains system calls |
| `Interruption.InterruptionSucceeds` | tracer.go:1739-1825 | A transaction with system calls anywhere inside it completes if and only if the one without them does and each system call goes through, which its body alone decides |
| `Balance.BalancedIsForest` | tracer.go:1390-1515 | An event sequence is well formed (entry depth equals the number of open calls, nothing open at the end, leaves only within a SELFDESTRUCT pair) if and only if it is the flattening of a forest of calls |
| `RoundTrip.ForestRoundTrip` | tracer.go:1390-1515 | For every forest flattened into hook events, the completed transaction is that forest: preorder, indexes 1..n, depth, parent, each change on its innermost open call, deferred changes on the next root call or the first, intervals nested along ancestry, each list strictly increasing, reverts exactly under failures |
| `RoundTrip.BalancedRoundTrip` | tracer.go:1390-1515 | The same for every well-formed event sequence |
| `RoundTrip.ForestCompletes` | tracer.go:1130-1141 | Exactly when tracing a forest completes: dropped; or no root call and no log or storage change waiting for one; or a receipt whose logs have the surviving logs' block indexes in emission order |
| `Told.TransactionIsTold` | tracer.go:1390-1727 | For every forest, each call of the completed transaction is what its hook calls told: kind by opcode, delegation, gas, return data unless it creates, failed exactly when its exit was reverted, reverted exactly when moreover a no-gas error is in the chain, failure reason, executed code, SELFDESTRUCT, state-reverted exactly when its own or an enclosing exit was reverted; and its five lists are exactly the changes and logs reported directly in it, before it and, for the first call, after the last, those that change nothing left out |
| `Outcome.OutcomeIsTold` | tracer.go:1130-1383 | For every forest, status, index, gas used, return data, authorizations, receipt logs and preimages of the completed transaction are those that the first call's exit, the receipt and the hook calls tell |
| `Outcome.CompletedHeader` | tracer.go:1169-1190 | Whatever the body, a completed transaction with a call is Reverted exactly when its first call is; otherwise Succeeded exactly when the receipt has status 1, Failed when it has another, unchanged without a receipt; index and gas used are the receipt's, return data the first call's |
| `Outcome.EmptyCompletes` | tracer.go:1130-1141 | Without a call, completion succeeds exactly when the transaction is dropped or no log and no storage change was reported |
| `Outcome.ForestAuths` | tracer.go:1344-1383 | In the completed transaction an authorization is discarded exactly when its signer is unknown or the earlier ones of the same signer and nonce are at least as many as the nonce changes, from that nonce to the next modulo 2^64, reported before and in the first call |
| `Outcome.DiscardTold` | tracer.go:1344-1383 | The same for every list of authorizations and changes |
| `Outcome.ReceiptIsTold` | tracer.go:1243-1315 | Whatever the body, the receipt of a completed transaction has the given logs in the given order, in increasing order of ordinal and index, and each is a log of a call that is not reverted, or one that never is, and each such log is one of them |
| `Outcome.LogsNumbered` | tracer.go:1701-1727 | Whatever the body, every log of a completed transaction is numbered by how many logs were reported before it |
| `Outcome.ForestPreimages` | keccak_filter.go:54-135 | Each call of the completed transaction shows, for every hash that explains a written slot, the first preimage of at most 256 bytes hashed to it directly in the call, and nothing else |
| `SystemCalls.SystemCallIsTold` | tracer.go:1739-1825 | Between transactions or inside one, a system call over a forest goes through exactly when no log and no storage change is reported after its last root call; it then adds to the block exactly the calls as reported, in closing order, none state-reverted and none with a delegation, with their preimages, and changes nothing else but the counter |
| `Hooks.EntryTold` | tracer.go:1390-1461 | In every state, an entry goes through exactly for the opcodes 0xf0, 0xf1, 0xf2, 0xf4, 0xf5, 0xfa and 0xff; 0xff only makes the next exit pass by, each other one opens a call of the kind of its opcode, new and numbered, with the deferred changes at depth zero |
| `Hooks.ExitTold` | tracer.go:1465-1515 | In every state, when an exit goes through, and which fields of the innermost call it sets to what: failed exactly on a reverted exit, return data kept by calls that create |
| `Hooks.HookPanics` | tracer.go:1390-1887 | For every state, exactly when each hook inside a block panics |
| `Hooks.BoundariesPanic` | tracer.go:462-1825 | For every state, exactly when the hooks that start, end and reset blocks, transactions, system calls and snapshots panic; of the end of a transaction, that it needs a block and a transaction, and goes through when dropped |
| `Hooks.BlockOpens` | tracer.go:351-459 | Between blocks a block without flash data always opens, empty and with ordinals counted from zero |
| `Hooks.BetweenTransactions` | tracer.go:1544-1661 | A sequence of changes between transactions is accepted exactly when no nonce and no storage slot changes; the block then gains exactly the counting balance and code changes, in order, under ordinals of their own |
| `Hooks.BlockEmitted` | tracer.go:351-507 | Whatever happens within a block, its end emits exactly one block, as traced by then, under the number, hash, finality and flash data of its start; with an error it emits none |
| `Hooks.CommittedOnce` | tracer.go:1078-1127 | After a commit, whatever the others do, further commits of the same tracer change nothing until it is told something more |
| `Forest.FlattenRuns` | tracer.go:1390-1515 | Running the machine on a flattened forest never panics and yields the calls a structural recursion over the forest builds, skipping SELFDESTRUCT pairs |
| `Outline.OutlineNumbers` | callstack.go:26-41 | The calls read off a forest are numbered consecutively in preorder |
| `Nesting.BuildObeys` | tracer.go:1410-1515 | Along every traced forest: begin ordinals increase with the index, siblings do not overlap, children lie inside parents, the changes of a call lie inside its interval or, for a root call, before its begin, and what is left over comes after every call |
| `Trees.IntervalsNest` | tracer.go:1410-1515 | Of two calls of a transaction, one interval contains the other exactly when its call is an ancestor; otherwise the intervals are disjoint |
| `Trees.RevertsPropagate` | tracer.go:1322-1334 | Where parents precede children, the parent lookup never leaves the list and a call is marked reverted exactly when it or an ancestor failed |
| `Trees.CompletionOrders` | tracer.go:1142-1198 | Whatever order calls were closed in, completion restores preorder, puts the leftover on the first root call, and marks reverts by ancestry |
| `OrdinalSafety.OrdinalSafety` | tracer.go:351-1127 | Along every orderly run (transactions, system calls, block changes, flash snapshots and restores, spawns and commits in any order) no positive ordinal is recorded twice or exceeds the counter, in any state reached, and in any emitted block none exceeds the counter at its emission; without the loss cases they are exactly 1..counter. No block along the run records ordinal zero if and only if no undropped transaction is ended while a system call is running |
| `OrdinalSafety.EmittedOrdinals` | ordinal.go:12-14 | So when no transaction is ended inside a system call, every emitted block records distinct ordinals within 1..counter at its emission, zero never, and all of them without the loss cases |
| `OrdinalSafety.EndingInsideCollides` | tracer.go:882-910 | The run that shows the condition is needed: two transactions ended inside system calls put ordinal zero twice in an emitted block |
| `OrdinalSafety.CoordinatorSafe` | tracer.go:351-1887 | Every coordinator hook keeps the invariant: distinctness, range up to the counter (for emitted blocks up to the counter at emission) and, outside the loss cases, completeness; the blocks stay free of ordinal zero exactly when the hook does not end a transaction inside a system call |
| `OrdinalSafety.CommitSafe` | tracer.go:1101-1120 | Committing keeps the invariant and adds no ordinal zero: shifted ordinals start right above the coordinator's counter |
| `IsolatedSystemCall.IsolatedSystemCallCollides` | tracer.go:1757-1777 | Why isolated tracers must not run system calls: after any run, for every body, such a call goes through exactly when its body does, and the coordinator goes on as without it except that the block records the call's own ordinals once more; when the run is orderly and lossless, an ordinal is recorded twice exactly when a filed call records it and the coordinator's counter reaches it |
| `IsolatedSystemCall.FiledOrdinals` | tracer.go:1757-1777 | The filed calls record ordinals of 1..counter of the isolated tracer, each at most once, and at least one if there is a call |
| `Counts.EventCounts` | tracer.go:1390-1727 | One event inside a transaction records the next ordinal exactly once if it advances the counter, and moves, loses and duplicates nothing else |
| `Counts.CompleteCounts` | tracer.go:1130-1207 | Completion conserves every recorded ordinal, adds the end ordinal, and loses deferred changes exactly when there is no call |
| `Receipts.ReceiptsAgree` | tracer.go:1258-1315 | Whenever a transaction completes, whatever its body, its surviving logs are strictly increasing in ordinal and in index, reverted logs have block index zero, and the receipt logs are the surviving ones one for one with equal ordinal, index and block index |
| `Receipts.SettledInOrder` | tracer.go:1276-1278 | The unstable sort of call logs has only one possible result, since their ordinals are distinct |
| `Receipts.PairingPanics` | tracer.go:1286-1314 | Pairing panics exactly when the numbers of logs or some block index differ |
| `Receipts.SurvivorWasHeld` | tracer.go:1258-1273 | No log is made up: every surviving log has ordinal, index, address, topics and data of a log held during the transaction |
| `Authorizations.MatchingIsMaximum` | tracer.go:1344-1383 | Exactly the applied authorizations stay undiscarded, each with a matching nonce change of its own, and per signer and nonce their number is the minimum of the authorizations and of the nonce changes of that signer from that nonce to the next |
| `Authorizations.NoneServesMore` | tracer.go:1344-1383 | No other assignment of distinct matching nonce changes serves more authorizations of any signer and nonce |
| `Authorizations.AppliedIsMinimum` | tracer.go:1344-1383 | Within every prefix of the authorizations the number kept of a claim is that minimum for the prefix, so the earliest ones are kept |
| `Blocks.BlockEndIdles` | tracer.go:462-507 | After a block end, with or without error and from any state, the coordinator is as new but for the flash snapshot and what it emitted |
| `Blocks.FailedBlockEnds` | tracer.go:493-501 | A block end with an error succeeds exactly when a block is open, also inside a transaction or system call |
| `Blocks.BlocksIndependent` | tracer.go:183-216 | From any two states between blocks, the same non-flash events panic together or emit the same blocks |
| `Blocks.FlashStartRejected` | tracer.go:415-429 | A block start is rejected exactly when a stored snapshot of the same block number has an index that is not smaller |
| `Blocks.FlashIndexMayGoBack` | tracer.go:415-429 | Without a snapshot in between, indexes of one block number may go backwards |
| `Blocks.IterationLeaves` | tracer.go:543-567 | After a flash iteration the stored snapshot is exactly the state at its snapshot point, untouched by what followed |
| `Blocks.IterationContinues` | tracer.go:441-459 | The next iteration has a larger index and starts with exactly the snapshot's transactions, system calls, changes and ordinal |
| `Blocks.FailedFlashDiscards` | tracer.go:493-501 | After a failed flash block the next iteration starts afresh, at any index, with the counter at zero |
| `FlashRuns.SnapshotHeld` | tracer.go:412-567 | After every run of a coordinator and its isolated tracers, a snapshot is stored exactly when, by the hook calls alone, one was taken and neither a failed flash block nor a flash start of another number came since; it is the state the coordinator was in when the last one was taken |
| `FlashRuns.FlashStartAccepted` | tracer.go:415-459 | After every run, the start of a flash iteration is accepted exactly when its index exceeds that of the snapshot standing for its block number, if any; it then resumes with exactly the block contents and ordinal of that point, and from an empty block otherwise |
| `FlashRuns.SnapshotPersists` | tracer.go:415-567 | In an unbroken series (no failed flash block, no flash start of another number, no ordinary start inside a flash block) a snapshot of the block always stands, its index never decreases, and an open flash block has a larger index than an earlier snapshot exactly when a block started since |
| `FlashRuns.IndexesIncrease` | tracer.go:415-429 | Of any two snapshots of an unbroken series the later has an index that is not smaller, and larger exactly when another block started in between; iterations without a snapshot or with several, ordinary blocks, spawns and commits may come anywhere |
| `FlashRuns.OrdinaryStartInside` | tracer.go:351-381 | Why an ordinary start inside a flash block breaks a series: the new block is taken for a flash block of the old index |
| `Queue.QueueRefinesSynchronous` | concurrency.go:29-57 | For every interleaving of producer, worker and closer, written, in-progress and queued lines are the pushed ones in order; once the worker has exited the stream is that of synchronous writing |
| `Queue.DrainTerminates` | concurrency.go:43-57 | After close the worker can always move until it exits, every move of its brings the exit closer, and no other party delays it |
| `Queue.FullQueueMoves` | concurrency.go:36-57 | A blocked push is never blocked for good: the worker can make room |
| `Queue.FlushToFirehose` | tracer_printer.go:51-63 | The retry loop writes a line whole across short writes exactly when the first ten writes together take it; otherwise it panics having written a strict prefix |
| `Queue.ConcurrentFlushQueue.Push` | concurrency.go:36-38 | Panics on a closed queue; otherwise, also when it is full or has no buffer and the worker must take a line first, and however far the worker gets meanwhile, what is written and what is queued are together the earlier lines and this one in order; if a write panics, whole lines and a strict prefix of the next were written |
| `Queue.ConcurrentFlushQueue.RunWorker` | concurrency.go:51-57 | Given any number of turns, on an open or closed queue, the worker writes that many queued lines in order, exits exactly when the closed queue is empty with a turn left, or stops at the first write that panics with a strict prefix of that line written |
| `Queue.ConcurrentFlushQueue.Close` | concurrency.go:43-48 | Returns with every queued line written; closing again does nothing |
| `Genesis.ChangesRebuild` | tracer.go:264-291 | Replaying the changes reported for an allocation from nothing gives the allocation without zero balances, zero nonces, empty code and zero storage values |
| `Genesis.IterationOrderIrrelevant` | tracer.go:320-348 | The reported changes are the same for every map iteration order |
| `GenesisBlock.GenesisReplay` | tracer.go:242-310 | Between blocks the genesis hook always completes and emits one block with one transaction of one call whose recorded lists replay to the normalised allocation, whatever the iteration order |
| `Bytes.LexIsNumeric` | keccak_filter.go:100 | Bytewise comparison of equally long strings is comparison of their big-endian values, and equality is equality of values |
| `KeccakFilter.KeccakSlotBase` | keccak_filter.go:139-147 | Binary search returns the numerically nearest hash at or below the key when it is less than 2^64 away, and nothing exactly when there is no such hash |
| `KeccakFilter.BaseIsUnique` | keccak_filter.go:137-147 | A key has at most one slot base |
| `KeccakFilter.IndexPreimages` | keccak_filter.go:89-94 | Maps every recorded hash to its first-recorded preimage |
| `KeccakFilter.SortHashes` | keccak_filter.go:96-100 | Sorted without duplicates, with exactly the hashes given |
| `KeccakFilter.InnerKeccakHashCandidates` | keccak_filter.go:152-161 | The list has a 32-byte word exactly when the preimage has it at a multiple of 32 or at its very end; in the order of the windows |
| `KeccakFilter.CandidatesAre` | keccak_filter.go:149-161 | The same of the specified list: every word of the preimage at such a place is a candidate, and nothing else is |
| `KeccakFilter.WindowsOnce` | keccak_filter.go:152-161 | The scanned windows are exactly the aligned words and the last word of a preimage, each once |
| `KeccakFilter.KeepBases` | keccak_filter.go:104-120 | Adds exactly the slot bases of the given 32-byte words and queues each newly kept hash once |
| `KeccakFilter.WithinStep` | keccak_filter.go:122-132 | Reachability within one more edge is the old reachability or one edge from it |
| `KeccakFilter.Saturated` | keccak_filter.go:122-132 | Once a level adds nothing no deeper level does, so stopping at an empty frontier is exact |
| `KeccakFilter.ExpandLevel` | keccak_filter.go:122-132 | One level of the search keeps exactly the hashes one edge away from the frontier |
| `KeccakFilter.StorageSlotHashes` | keccak_filter.go:88-135 | The search keeps a hash exactly when it is the nearest recorded one at or below a storage key, less than 2^64 away, or so for a word, at a multiple of 32 or at the end, of the first preimage of a hash kept one level before, over at most 16 levels; those it expands are exactly those of 15 levels, each once |
| `KeccakFilter.ReachesIsWithin` | keccak_filter.go:54-135 | The bounded reachability of the search is the one written out over words of preimages and numeric distances |
| `Preimages.CollectStorageKeys` | keccak_filter.go:111-115 | Goes through the storage keys of all calls in order |
| `Preimages.ExplainedAppend` | keccak_filter.go:68-83 | One more recorded preimage changes what a call gets only when its hash is kept and not yet there |
| `Preimages.AttachStorageSlotPreimages` | keccak_filter.go:54-84 | Each call, looked up by index with the last of equal indexes winning, gets the first preimage it recorded of each kept hash; nothing else changes |
| `Objects.Ordinal.Next` | ordinal.go:12-14 | Returns the counter after increasing it by one |
| `Objects.CallStack.Push` | callstack.go:26-41 | Numbers the call (next index, depth below it, index of the call that was on top) and puts it on top; nothing else changes |
| `Objects.CallStack.Pop` | callstack.go:45-54 | Removes and returns the top call, none from an empty stack; the index counter stays |
| `Objects.DeferredCallState.Add` | deferred_call_state.go:58-80 | Appends a change to the list of its kind only |
| `Objects.DeferredCallState.MaybePopulateCallAndReset` | deferred_call_state.go:90-122 | Prepends on "enter", appends on "root", each list keeping its order, and empties the deferred state; an unknown source is an error exactly when something is deferred, and then nothing changes |
| `Objects.Close` | tracer.go:1484-1511 | What the exit hook sets on a call, failure and revert status included; `Hooks.ExitTold` says which that is |
| `CallLoops.SortByIndex` | tracer.go:1142-1146 | The same call objects, sorted by index |
| `CallLoops.PopulateStateReverted` | tracer.go:1322-1334 | The marking loop in place computes the propagation, and panics exactly on a parent index beyond the list |
| `CallLoops.RemoveLogBlockIndexOnStateRevertedCalls` | tracer.go:1243-1254 | Zeroes block indexes of the logs of reverted calls other than never-reverted ones, in place |
| `CallLoops.AssignOrdinalAndIndexToReceiptLogs` | tracer.go:1258-1315 | Pairs the sorted surviving logs with the receipt logs, and panics exactly on a different number or block index |
| `CallLoops.DiscardUncommittedSetCodeAuthorizations` | tracer.go:1344-1383 | The greedy loop with its used set computes the matching that `Authorizations.MatchingIsMaximum` and `Outcome.DiscardTold` are about |
| `CallLoops.ReorderCallOrdinals` | tracer.go:1926-1948 | Adds the base to every ordinal of the call, in place |
| `CallLoops.ReorderTransactionOrdinals` | tracer.go:2096-2120 | Adds the base exactly once to every ordinal of the transaction, its calls and its receipt logs, and returns the end ordinal |
| `Completing.FillCalls` | tracer.go:1157-1167 | Moves the leftover to the first call and attaches preimages, in place |
| `Completing.SettledRoot` | tracer.go:1183-1190 | Reading the root call's status and return data before reverts are propagated is reading them after |
| `Completing.CompleteTransaction` | tracer.go:1130-1207 | Completion in place computes the specified transaction, panics exactly when it does, keeps the same call objects and uses the deferred state up; `Outcome.CompletedHeader` and `Outcome.OutcomeIsTold` say what that transaction is |
| `WorkObjects.SnapshotUnaffected` | tracer.go:441-459 | What is appended to a block later does not show in a snapshot of it, though the snapshot only refers to the block |
| `Steps.CommitCases` | tracer.go:1078-1127 | A commit of an undropped completed transaction appends the shifted transaction, which stays the isolated tracer's own, and sets the counter to its end; otherwise nothing is appended |
| `Tracing.NewTracer` | tracer.go:132-175 | A new tracer is in the initial state of the machine |
| `Tracing.Tracer.OnBlockStart` | tracer.go:351-410 | Same step and panics as the machine; flash index check, snapshot restored by copying the prefixes of the previous block's lists |
| `Tracing.Tracer.OnBlockEnd` | tracer.go:462-507 | Same step and panics as the machine; emits the block with finality and flash context captured before the reset |
| `Tracing.Tracer.OnSkippedBlock` | tracer.go:510-519 | Starts and ends the block, flash data included; panics exactly inside a transaction or when one of the two does |
| `Tracing.Tracer.SnapshotFlashBlockForNextIteration` | tracer.go:543-567 | Keeps a reference and list lengths, which stand for the block as it is now |
| `Tracing.Tracer.OnTxStart` | tracer.go:709-840 | Same step and panics as the machine; authorizations with failed recovery discarded |
| `Tracing.Tracer.OnTxEnd` | tracer.go:882-910 | Same step and panics as the machine: completed in place, then appended to the block or kept for the commit, or dropped |
| `Tracing.Tracer.OnTxSpawn` | tracer.go:947-994 | Succeeds exactly on a coordinator in a block; the new tracer shares the block object and nothing else, and counts from zero |
| `Tracing.Tracer.OnTxReset` | tracer.go:1015-1042 | Back to a fresh isolated tracer except for recorded preimages, the system-call flag and an interrupted transaction, which stay |
| `Tracing.Tracer.OnTxCommit` | tracer.go:1078-1127 | Both tracers end as the specified commit says, the shared transaction shifted exactly once, also when the isolated tracer was spawned for another block or by another coordinator; the error cases change nothing |
| `Tracing.Tracer.OnCallEnter` | tracer.go:1390-1461 | Same step and panics as the machine: SELFDESTRUCT only sets the flag, the root call takes over what was deferred, delegation looked up only where the source does; `Hooks.EntryTold` says for which opcodes it opens a call, and of which kind |
| `Tracing.Tracer.OnCallExit` | tracer.go:1465-1515 | Same step and panics as the machine: skipped after SELFDESTRUCT, otherwise closes the innermost call and hands it to the transaction; `Hooks.ExitTold` says with what status |
| `Tracing.Tracer.OnBalanceChange` | tracer.go:1544-1583 | Same step and panics as the machine: ignored, put on the active call, deferred, or put on the block |
| `Tracing.Tracer.OnNonceChange` | tracer.go:1586-1611 | Same step and panics as the machine |
| `Tracing.Tracer.OnCodeChange` | tracer.go:1615-1660 | Same step and panics as the machine, the code removal of a call that executed SELFDESTRUCT left out |
| `Tracing.Tracer.OnStorageChange` | tracer.go:1663-1690 | Same step and panics as the machine |
| `Tracing.Tracer.OnLog` | tracer.go:1701-1727 | Same step and panics as the machine; logs numbered in emission order |
| `Tracing.Tracer.OnSystemCallStart` | tracer.go:1739-1809 | Same step and panics as the machine; an interrupted transaction keeps its objects, because the new call stack and deferred state exist before the reset empties anything |
| `Tracing.Tracer.OnSystemCallEnd` | tracer.go:1757-1825 | Same step and panics as the machine; the very objects set aside are back |
| `Tracing.Tracer.OnOpcode` | tracer.go:1828-1848 | Marks the active call as having executed code, and as SELFDESTRUCT on that opcode without error; never panics |
| `Tracing.Tracer.OnOpcodeFault` | tracer.go:1876-1887 | Marks the active call as having executed code; never panics |
| `Tracing.Tracer.OnKeccakPreimage` | tracer.go:1856-1871 | Records a preimage of at most 256 bytes for the active call; panics exactly outside a call |
| `Replay.DeliverAll` | tracer.go:351-1887 | Any sequence of hook calls on one tracer object panics exactly when the machine does and otherwise leaves it in the machine's state |
| `ReplayWorld.DeliverActions` | tracer.go:947-1127 | Any sequence of hook calls on a coordinator and the isolated tracers it spawned, of spawns and of commits, in any order and over the shared block object, panics exactly when the machine of worlds does and otherwise leaves all the objects in the machine's world |
| `ReplayWorld.TraceAll` | tracer.go:132-1127 | From a new tracer object on, any such sequence leaves the coordinator object in the state of the run from the initial world, which the theorems on runs and schedules are about |
| `ReplayWorld.BlockGrows` | tracer.go:441-459 | Whatever happens within a block only appends to its lists, which is why tracers that share it do not disturb each other |
| `GenesisHook.OnGenesisBlock` | tracer.go:242-348 | The genesis hook on the object, looping over sorted keys: between blocks it always completes and the block it emits replays to the allocation |
| `Sorting.SortIsUnique` | tracer.go:1142-1146 | Any sort by a key that tells all elements apart gives the one result, so the sorting algorithm does not matter |

## Left out

- `Parallel.ParallelEqualsSequential`: is about transactions without a system call inside, because an isolated tracer writes its system calls to the shared block with its own ordinals (`IsolatedSystemCall.IsolatedSystemCallCollides`); between commits the coordinator traces changes and whole system calls, not transactions of its own and no flash snapshot.
- `OrdinalSafety.OrdinalSafety`: assumes that a block starts when none is open, calls are entered inside a transaction, and an isolated tracer runs no system call and gets only a reset after its end; copies of ordinals in receipt logs are not counted.
- `Retry.RetriesInvisible`: a tracer is not reset after its commit, and abandoned attempts run no system call; a preimage left over need not show in one particular transaction retried, so the condition is exact for all of them together (`LeftPreimages.ResetIsInvisible`), not for each.
- `FlashRuns.SnapshotHeld`: isolated tracers get the events of transactions and system calls only, not block starts, block ends or snapshots, which would end or replace the block under the coordinator.
- `ReplayWorld.DeliverActions`: the same restriction.
- `RoundTrip.ForestRoundTrip`: log indexes, ordinals and preimages of the calls are the subject of the receipt, ordinal and filter theorems, not of the outline comparison.
- `Told.TransactionIsTold`: which number each log has within its call is said by `Outcome.LogsNumbered` and the order of ordinals, not by the comparison of lists.
- `Tracing.Tracer.OnTxEnd`: the block keeps a finished transaction by value, so later events on an isolated tracer whose transaction is already in the block, other than a reset, do not change the block in the model.
- `Objects.DeferredCallState.Add`: one method for the five that append a change of one kind; account creations are not modelled, no hook records one.
- Machine integers: ordinals, call indexes, depths, log indexes and counters are unbounded; nonces match modulo 2^64. Balances and values are natural numbers.
- Payload fields that are only copied: headers, uncles, withdrawals, base fee, gas price, access lists, blob fields, signatures, blooms, state roots, and the created contract address.
- Rules, state reader and delegation parsing: a block event carries whether Prague applies, and a call entry carries what parsing the callee's code would give.
- Signer recovery and hashing: the recovered authority is part of the transaction event, empty when recovery fails; hashes are opaque 32-byte values.
- Rendering of an output line, the printed flash index and the last irreversible number: a line is an opaque byte sequence; its block, finality and flash context are kept.
- `BeforeBlockFlush` is taken as absent and `IsNeverRevertedLog` as a fixed predicate of address, topics and data.
- The initialisation hook, `IgnoreGenesisBlock`, numbers of balance-change reasons other than the unknown one, logging, configuration plumbing, builders, test helpers, and the accessors of the call stack and of the flash state that no hook uses.
- Unreached code: `reorderIsolatedTransactionsAndOrdinals`, `addIsolatedTransaction`, `addIsolatedSystemCalls`, `reorderTraceOrdinals`, and the depth remembered for SELFDESTRUCT, which nothing reads.
- Data races: commits of distinct isolated tracers are atomic, as the mutex makes them; events on the coordinator during a commit are misuse and not modelled.
- Library sorts are replaced by an insertion sort; `Sorting.SortIsUnique` says why that makes no difference.
