# wallet-demo: listener, stores and transaction builder in Dafny

This project models three parts of the wallet-demo service and proves what they promise.

- **The polling block listener.** A listener for one network keeps three things:
  - a cursor, the last processed block;
  - a window of recent block hashes, used to detect chain reorganisations;
  - a ledger of unconfirmed events per block.

  `poll` processes every block after the cursor up to the chain head.
  - `processBlock` first repairs a detected reorganisation. When the block's stored hash differs from the fetched one, `handleReorg` retracts every block from that one up to the highest block with a stored hash. For each such block with a ledger entry, it emits the pending events again as reorged and deletes the entry and the block's hash.
  - It then records the block's hash and moves the cursor.
  - It prunes the hash that has left the window.
  - Last, it emits an event for every transaction whose recipient or sender is watched.

  `checkConfirmations` emits the events of every block at least `depth` blocks deep confirmed, and drops them from the ledger.

  A `Manager` routes watch requests to the listener registered for each network.
- **The in-memory stores.** There are three:
  - a per-address nonce counter;
  - an idempotency-keyed transaction store;
  - a set of watched addresses.
- **The transaction builder.** `Send` runs these steps in order:
  1. an idempotency lookup;
  2. nonce allocation;
  3. a fee lookup;
  4. a signer lookup and signing;
  5. a bounded broadcast retry;
  6. storing the signed transaction under its key.

## Layout

- `models.dfy` (`Models`): the shared records.
  - `Transaction` and `BlockEvent`.
  - Network names.
  - `Outcome` (Go's `error`), `Result` and `Option`.
- `storage.dfy` (`Storage`): the three stores.
  - Each is a class with one `map` or `set` field that its methods update in place.
- `listener_model.dfy` (`ListenerModel`): the listener as a pure state machine.
  - `State` holds the cursor, the hash window, the ledger and the emitted event stream.
  - `ProcessBlockStep`, `RetractRange`, `ConfirmBlocks` and `PollStep` state what one call of processBlock, handleReorg, checkConfirmations and poll does.
- `listener.dfy` (`Listener`): the `PollingListener` and `Manager` classes.
  - The listener's fields are the source's `lastBlock`, `blockHashes` and `pendingEvents`.
  - The event channel is the append-only sequence `events`.
  - Each `PollingListener` method that changes the cursor, the hashes, the ledger or the stream is proved to change them exactly as the matching `ListenerModel` function says.
  - `WatchAddress` and `UnwatchAddress` change only the watch store, and `AddressSet` is a static helper. Their contracts state their effect directly.
  - The `Manager` methods have no `ListenerModel` counterpart. Their contracts state the new routing table and the result directly.
- `listener_properties.dfy` (`ListenerProperties`): the listener's promises, proved as lemmas about the state machine.
  - The lemmas further down build on the lemmas before them.
  - Scenario lemmas replay the listener tests.
- `builder.dfy` (`Tx`): the builder.
  - `SendStep` is the reference definition of one send over the contents of the two stores.
  - `Builder.Send` performs it on the store objects and is proved equal to it.
  - Lemmas state idempotency, nonce consumption and the fields of the built transaction.

## Modelling choices

- **The fetcher.** The block fetcher is a value: the chain head (or the error the head query returns) and a map from block number to block.
  - A number missing from the map makes `GetBlock` fail.
  - `processBlock` lists the watch store anew for every block. In the state machine a `Listing` says what `List` returns at each block number, so it may differ or fail at any block of a poll. The lemmas cover every such listing.
  - The class methods use the in-memory store, whose `List` always returns `Ok` of its set, and that set does not change during a poll.
- **Unordered iteration.** `checkConfirmations` and `List` iterate over Go maps in no fixed order.
  - The methods pick the next key with `:|`.
  - `CheckConfirmations` returns the order it took as a ghost `order`.
  - Its contract says `order` enumerates exactly the eligible blocks, once each.
  - Every sweep property is proved for all such orders.
- **The signer.** A signer is an abstract function from the built transaction and the key to a signed transaction or an error.
- **The broadcast.** `BroadcastWithRetry` counts attempts against a predicate saying which attempts are accepted.
  - `Send` passes the source's stub, which accepts every attempt.
- **Store errors.** The memory stores never fail, and their contracts say so (`err == Pass`).
  - The error paths of `Send`, `ProcessBlock` and `Manager.WatchAddress` are still written out.
  - The state-machine functions also model a failing watch-store listing.
- **Reorganisations.** A reorganisation can only be detected for a block whose hash is already stored.
  - Within a bounded window, every stored hash is for a block at or below the cursor, and `poll` only processes blocks above it.
  - So an ordinary poll never retracts anything (`PollNeverRetracts`).
  - The repository's reorg test moves the cursor back (`l.lastBlock = 0`) to trigger it. `ReorgFirstPoll`, `ReorgRetractsOriginal` and `ReorgSecondPoll` do the same.
  - Moving the cursor back also reprocesses blocks whose hash has not changed. Such a block detects no reorganisation, so its matches are added to its ledger entry and emitted a second time (`RewindSameHashRepeats`). The source behaves the same way, so after a rewind a transaction can have two fresh events.
- **The confirmation test.** That test polls on a timer. `ConfirmationFirstPoll` and `ConfirmationSecondPoll` replay one possible run: a poll at head 1, then a poll at head 4.

## Model

| member | source | states |
|---|---|---|
| ListenerModel.EffectiveDepth | internal/listener/listener.go:89-91 | a configured depth of 0 becomes 12, any other depth is kept, and the result is positive |
| Listener.PollingListener.constructor | internal/listener/listener.go:88-104 | the new listener has the effective depth, cursor 0, no hashes, an empty ledger and an empty event stream |
| Listener.PollingListener.WatchAddress | internal/listener/listener.go:128-134 | the address is added to the listener's watch store and the store's (nil) error is returned |
| Listener.PollingListener.UnwatchAddress | internal/listener/listener.go:136-142 | the address is removed from the watch store and the store's (nil) error is returned |
| Listener.PollingListener.MaxStoredKey | internal/listener/listener.go:199-204 | the loop over the hash window returns the highest stored block number, 0 if none |
| ListenerModel.RetractBlock | internal/listener/listener.go:263-281 | definition: a block with a ledger entry has its events emitted reorged, then its entry and its hash deleted; a block without one is skipped |
| ListenerModel.RetractRange | internal/listener/listener.go:261-283 | definition: handleReorg retracts the blocks of the range one at a time in ascending order |
| ListenerModel.MaxKey | internal/listener/listener.go:199-204 | the result bounds every key, is a key when there is one, and is 0 for no keys |
| Listener.PollingListener.EmitReorged | internal/listener/listener.go:267-279 | the stream is extended by every given event with reorged set and confirmed cleared, in order |
| Listener.PollingListener.EmitConfirmed | internal/listener/listener.go:289-301 | the stream is extended by every given event with confirmed set, in order |
| ListenerModel.AllReorged | internal/listener/listener.go:267-269 | position by position, the retraction of each event; same length |
| ListenerModel.AllConfirmed | internal/listener/listener.go:289-290 | position by position, the confirmation of each event; same length |
| Listener.PollingListener.HandleReorg | internal/listener/listener.go:261-283 | the new state is `RetractRange` of the old one over reorgBlock..upTo |
| ListenerModel.RetractRangePending | internal/listener/listener.go:261-283 | handleReorg keeps the cursor and deletes exactly the ledger entries of reorgBlock..upTo |
| ListenerModel.RetractRangeHashes | internal/listener/listener.go:262-281 | handleReorg deletes the hash of a block in the range exactly when that block had a ledger entry, and keeps every other hash |
| ListenerModel.RetractRangeEmitted | internal/listener/listener.go:262-279 | handleReorg appends `RetractedEvents` of the old ledger to the stream |
| ListenerProperties.RetractedEventsAreRetractions | internal/listener/listener.go:267-269 | every event handleReorg emits is reorged and not confirmed |
| ListenerProperties.AllReorgedHas | internal/listener/listener.go:267-275 | the retraction of each pending event of a block is among the events emitted for it |
| ListenerProperties.RetractedEventsHas | internal/listener/listener.go:262-281 | the retraction of any one pending event of a block in the range is emitted |
| ListenerProperties.RetractedEventsCover | internal/listener/listener.go:262-281 | the retraction of every pending event of every block in the range is emitted |
| ListenerProperties.RetractedEventsAscending | internal/listener/listener.go:262-283 | over a well-formed ledger, the retractions are all of blocks in the range and come in ascending block order |
| ListenerModel.ConfirmBlock | internal/listener/listener.go:288-303 | definition: a visited block's events are emitted confirmed and its entry is deleted |
| ListenerModel.ConfirmBlocks | internal/listener/listener.go:286-305 | definition: checkConfirmations promotes the blocks of a given visiting order one at a time |
| Listener.PollingListener.CheckConfirmations | internal/listener/listener.go:286-305 | the ghost `order` visits each block at least depth blocks deep exactly once, and the new state is `ConfirmBlocks` of the old one in that order |
| ListenerModel.ConfirmBlocksEffect | internal/listener/listener.go:286-305 | a sweep keeps the cursor and the hashes, deletes exactly the visited entries, and (visiting no entry twice) appends `ConfirmedEvents` |
| ListenerModel.ConfirmBlocksKeepsUnvisited | internal/listener/listener.go:287-302 | an entry the sweep has not yet visited is still in the ledger, unchanged |
| ListenerProperties.ConfirmedEventsMembers | internal/listener/listener.go:287-301 | the sweep emits only confirmations of events of visited entries, and the confirmation of every event of each visited entry (both directions) |
| ListenerProperties.SweepPromotesEligible | internal/listener/listener.go:286-305 | a sweep in any valid order deletes exactly the entries deep enough, leaves the others as they were, keeps the hashes and the cursor, and appends its confirmations |
| ListenerProperties.SweepEmitsEligible | internal/listener/listener.go:287-301 | such a sweep emits the confirmation of every event of the entries deep enough, and nothing else (both directions) |
| ListenerProperties.SweepEmitsConfirmed | internal/listener/listener.go:289-290 | over a well-formed ledger the sweep emits only confirmed, non-reorged events |
| ListenerProperties.SweepKeepsInvariants | internal/listener/listener.go:286-305 | a sweep keeps the ledger well formed, within the reach of handleReorg, and the hash window bounded |
| ListenerProperties.SweepAccounted | internal/listener/listener.go:286-305 | a sweep loses no pending event: each one stays in its entry or is emitted confirmed, never reorged |
| ListenerProperties.SweepAddsNoRetraction | internal/listener/listener.go:289-301 | a sweep over a well-formed ledger adds no reorged event to the stream |
| ListenerModel.Matches | internal/listener/listener.go:227-253 | definition: one fresh event per transaction whose recipient or sender is watched, in transaction order |
| ListenerModel.AddMatches | internal/listener/listener.go:239-249 | definition: the matches are appended to the block's ledger entry and to the event stream |
| Listener.PollingListener.AddressSet | internal/listener/listener.go:222-225 | the set built from the listed addresses has exactly their members |
| Listener.PollingListener.MatchTransactions | internal/listener/listener.go:227-254 | the ledger entry of the block and the stream are extended by `Matches` of the block's transactions |
| ListenerModel.AddMatchesAppend | internal/listener/listener.go:239-249 | recording matches one at a time is recording them all at once |
| ListenerModel.MatchIndices | internal/listener/listener.go:227-228 | every index of a watched transaction is a position in the block |
| ListenerProperties.MatchesIndexed | internal/listener/listener.go:227-253 | the events correspond one to one, in transaction order, to the positions whose recipient or sender is watched (iff), one event even when both are watched, each with the transaction's fields |
| ListenerProperties.MatchesAreFresh | internal/listener/listener.go:228-237 | every match is fresh, of the listener's network and block, and has a watched recipient or sender |
| ListenerModel.ReorgRepaired | internal/listener/listener.go:190-206 | definition: when the block's stored hash differs from the fetched one, the state is retracted from the block's number up to the highest stored block; otherwise the state is unchanged |
| ListenerModel.Record | internal/listener/listener.go:208-215 | definition: the block's hash is stored, the cursor moves to the block, and the hash depth+1 blocks below it is deleted |
| ListenerModel.ProcessBlockStep | internal/listener/listener.go:184-257 | definition of processBlock: a failed fetch changes nothing; otherwise reorg repair, then `Record`, then a failed listing stops, else `AddMatches` |
| Listener.PollingListener.ProcessBlock | internal/listener/listener.go:184-257 | the new state and the outcome are `ProcessBlockStep` of the old state, the fetched block and the watch set |
| ListenerProperties.ProcessBlockRecords | internal/listener/listener.go:208-221 | the cursor is the block, its hash is recorded, the hash that left the window is pruned, other hashes are kept or only deleted, and the outcome fails exactly when listing the watch set fails |
| ListenerProperties.ProcessBlockEmits | internal/listener/listener.go:190-254 | the stream is extended by the retractions first and the block's fresh matches after them; with no stored hash or the same hash nothing is retracted |
| ListenerProperties.ProcessBlockLedger | internal/listener/listener.go:190-254 | a reorganisation deletes exactly the entries from the block up to the highest stored block; entries below the block are never touched; the block's entry receives its matches |
| ListenerProperties.ReorgRetractsFromBlockOn | internal/listener/listener.go:191-206 | on a detected reorganisation every pending event from the block up is retracted, and no entry above the block survives |
| ListenerProperties.ProcessBlockKeepsLedgerFresh | internal/listener/listener.go:229-239 | processBlock keeps every ledger entry made of fresh events of its own block and network |
| ListenerProperties.ProcessBlockKeepsCovered | internal/listener/listener.go:197-209 | processBlock keeps every ledger entry at or below the highest stored hash |
| ListenerProperties.ProcessBlockAccounted | internal/listener/listener.go:184-257 | processBlock only appends to the stream and loses no pending event: each stays in its entry or is emitted reorged, never confirmed |
| ListenerProperties.NextBlockKeepsWindow | internal/listener/listener.go:208-215 | processing the block after the cursor keeps every stored hash within lastBlock-depth..lastBlock |
| ListenerProperties.WindowSize | internal/listener/listener.go:78-80 | within the window at most depth+1 hashes are stored |
| ListenerModel.ProcessRange | internal/listener/listener.go:171-176 | definition: blocks are processed in ascending order up to the head, stopping at the first failure |
| ListenerModel.PollBlocks | internal/listener/listener.go:165-176 | definition: a failed head query fails the poll unchanged; otherwise the blocks after the cursor are processed |
| ListenerModel.PollStep | internal/listener/listener.go:165-182 | definition of poll: the block loop, then the sweep at the head only if nothing failed |
| Listener.PollingListener.ProcessBlocks | internal/listener/listener.go:171-176 | the block loop of poll leaves the state and the outcome `ProcessRange` gives for lastBlock+1..latest |
| ListenerProperties.ProcessBlockKeepsInvariants | internal/listener/listener.go:184-257 | processBlock keeps the ledger well formed and covered and loses no pending event |
| ListenerProperties.ProcessRangeKeepsInvariants | internal/listener/listener.go:171-176 | processing consecutive blocks keeps the ledger well formed and covered and loses no pending event |
| ListenerProperties.ProcessRangeKeepsWindow | internal/listener/listener.go:171-175 | processing the blocks after the cursor keeps every stored hash within the confirmation window behind the cursor |
| ListenerProperties.ProcessRangeCursor | internal/listener/listener.go:171-175 | from any cursor, the cursor ends at the head, just before the block that could not be fetched, or at the block whose watch set could not be listed |
| ListenerProperties.NextBlockAppendsMatches | internal/listener/listener.go:184-254 | from a bounded window: processing the block right after the cursor appends only that block's matching transfers to the stream (so nothing is retracted), all fresh and stamped with its number and network; a failed step appends nothing; the hash window stays bounded and the cursor advances by one |
| ListenerProperties.ProcessRangeEmitsFresh | internal/listener/listener.go:171-176 | from a bounded window: the blocks after the cursor only append fresh events of those blocks to the stream, in ascending block order |
| Listener.PollingListener.Poll | internal/listener/listener.go:165-182 | the sweep order is valid, and the new state and outcome are `PollStep` of the old state |
| ListenerProperties.PollOutcome | internal/listener/listener.go:165-182 | from any cursor, including a rewound one: a failing head query changes nothing; on success the cursor is max(old cursor, head), with only the sweep run when the head is not ahead |
| ListenerProperties.ProcessBlockConfirmsNothing | internal/listener/listener.go:184-257 | from any state, processBlock only appends to the stream, and nothing it appends is confirmed |
| ListenerProperties.ProcessRangeConfirmsNothing | internal/listener/listener.go:171-176 | from any cursor, the block loop of poll only appends unconfirmed events, whether it completes or stops at a failure |
| ListenerProperties.PollFailure | internal/listener/listener.go:165-182 | a block that cannot be fetched leaves the cursor just before it; a watch set that cannot be listed while block k is processed leaves the cursor at k, for any k after the old cursor up to the head; no other error arises; from any cursor, including a rewound one, a failing poll skips the sweep and emits no confirmed event |
| ListenerProperties.PollKeepsInvariants | internal/listener/listener.go:165-182 | from any cursor, including a rewound one, a poll keeps the ledger well formed and covered and loses no pending event (each stays pending or is emitted reorged or confirmed); from a bounded window it keeps the window bounded |
| ListenerProperties.PollNeverRetracts | internal/listener/listener.go:171-191 | from a bounded window: a poll emits no reorged event, and a failing one emits no confirmed event |
| ListenerProperties.PollConfirmsDeepEntries | internal/listener/listener.go:178-179 | after a successful poll the ledger holds exactly the entries less than depth below the head, and every event of the others was emitted confirmed |
| ListenerProperties.ConfirmationFirstPoll | internal/listener/listener_test.go:148-176 | the first poll of the confirmation test emits the transfer unconfirmed and keeps it pending |
| ListenerProperties.QuietBlock | internal/listener/listener_test.go:178-181 | an empty block without a stored hash only moves the cursor and records its hash |
| ListenerProperties.ConfirmationQuietBlocks | internal/listener/listener_test.go:178-181 | blocks 2..4 of the confirmation test record their hashes and emit nothing |
| ListenerProperties.ConfirmationSecondPoll | internal/listener/listener_test.go:178-194 | the poll at head 4 emits the transfer confirmed and empties the ledger |
| ListenerProperties.ReorgFirstPoll | internal/listener/listener_test.go:202-236 | the first poll at head 1 emits the original transfer of block 1, not reorged, and keeps it pending |
| ListenerProperties.ReorgRetractsOriginal | internal/listener/listener_test.go:238-246 | with the cursor rewound, the new hash of block 1 is detected as a reorganisation that emits the original transfer reorged and deletes block 1's ledger entry and hash |
| ListenerProperties.ReorgSecondPoll | internal/listener/listener_test.go:238-275 | the second poll emits the original transfer reorged, then the replacing transfer fresh, and leaves only the replacing transfer pending under the new hash |
| ListenerProperties.RewindSameHashRepeats | internal/listener/listener.go:190-253 | with the cursor moved back and block 1 unchanged, reprocessing finds the same hash, retracts nothing, and records and emits the transfer a second time |
| Listener.Manager.constructor | internal/listener/listener.go:316-322 | a new manager has no listeners |
| Listener.Manager.RegisterListener | internal/listener/listener.go:324-326 | the listener is registered for the network; the last registration wins |
| Listener.Manager.WatchAddress | internal/listener/listener.go:362-368 | an unregistered network is an error; otherwise the address is added to that listener's watch store |
| Storage.MemoryNonceStore.constructor | internal/storage/memory.go:16-18 | a new store has no counters |
| Storage.MemoryNonceStore.GetAndIncrement | internal/storage/memory.go:21-27 | returns the old counter (0 if never seen), leaves it one greater, keeps every other counter, never fails |
| Storage.ConsecutiveNonces | internal/storage/memory.go:24-26 | repeated draws for one address return the old counter, plus one, plus two, and so on |
| Storage.MemoryTxStore.constructor | internal/storage/memory.go:36-38 | a new store holds no transactions |
| Storage.MemoryTxStore.Get | internal/storage/memory.go:41-45 | the stored transaction exactly when the key was stored (nil otherwise), never fails |
| Storage.MemoryTxStore.Put | internal/storage/memory.go:48-53 | stores the transaction under the key, overwriting, other keys kept, never fails |
| Storage.PutThenGet | internal/storage/memory.go:41-53 | a Get after a Put returns the transaction put, whatever is put under another key |
| Storage.MemoryWatchStore.constructor | internal/storage/memory.go:62-64 | a new store watches nothing |
| Storage.MemoryWatchStore.Add | internal/storage/memory.go:67-72 | the address joins the set (adding twice is adding once), never fails |
| Storage.MemoryWatchStore.Remove | internal/storage/memory.go:75-80 | the address leaves the set (an absent one changes nothing), never fails |
| Storage.MemoryWatchStore.List | internal/storage/memory.go:83-91 | every watched address exactly once, no other, length equal to the set's size, never fails |
| Storage.MemoryWatchStore.Contains | internal/storage/memory.go:94-98 | true exactly when the address is watched, never fails |
| Storage.WatchThenUnwatch | internal/storage/memory.go:67-98 | an added address is watched, and no longer watched once removed |
| Tx.EffectiveMaxRetries | internal/tx/builder.go:33-35 | a non-positive retry bound becomes 3, a positive one is kept |
| Tx.Builder.constructor | internal/tx/builder.go:32-46 | the builder has the effective retry bound, the fee map (empty for nil), no signers and the given stores |
| Tx.Builder.RegisterSigner | internal/tx/builder.go:48-51 | the signer is registered for the network; the last registration wins |
| Tx.EstimateFee | internal/tx/builder.go:128-133 | the configured fee of the network, or 0 if it has none |
| Tx.AlwaysAccepted | internal/tx/builder.go:166-176 | definition: the broadcast stub accepts every attempt |
| Tx.BroadcastWithRetry | internal/tx/builder.go:135-164 | succeeds iff some attempt within the bound is accepted, after exactly the first accepted attempt; otherwise fails after every attempt of the bound |
| Tx.Build | internal/tx/builder.go:86-94 | definition: the unsigned transaction carries the request's network, addresses, amount and data, the nonce and the fee |
| Tx.SendStep | internal/tx/builder.go:65-126 | definition of Send over the stores' contents: a stored key returns its transaction; otherwise a nonce is drawn, the transaction built, signed and broadcast, and stored only on success |
| Tx.Builder.Send | internal/tx/builder.go:65-126 | the result and the new contents of both stores are `SendStep` of the old contents and the request |
| Tx.SendIsIdempotent | internal/tx/builder.go:67-77 | a stored key returns the stored transaction and changes neither store; a successful send is returned again, with both stores unchanged, by the next send with its key |
| Tx.SendKeepsStored | internal/tx/builder.go:120-123 | a send never changes or removes a transaction already stored under any key |
| Tx.SendAll | internal/tx/builder.go:65-126 | definition: the stores after a sequence of sends made in order |
| Tx.SendAllKeepsStored | internal/tx/builder.go:120-123 | any sequence of sends keeps every stored transaction |
| Tx.EveryLaterSend | internal/tx/builder.go:67-77 | a successful send is returned again, with both stores unchanged, by a send with its key made after any sequence of other sends |
| Tx.SendNewKey | internal/tx/builder.go:79-125 | a new key consumes exactly one nonce of the sender even when the send fails; only success stores, under the key, the transaction the signer returned; without a signer the send fails |
| Tx.SendBuildsFromRequest | internal/tx/builder.go:80-94 | for a new key and a signer that keeps the built fields (as every wallet signer does, setting only the hash, the signed flag and the raw bytes), the sent transaction carries the sender's counter as nonce, the estimated fee, and the request's network, addresses, amount and data |
| Tx.SendNeverFailsBroadcast | internal/tx/builder.go:115-118 | with a positive retry bound, a send never fails in broadcasting |
| Tx.ConsecutiveSendNonces | internal/tx/builder.go:79-83 | two new-key sends from one address advance its counter by two, whatever the signers do and even when a send fails; with signers that keep the built fields, two successful sends carry nonces that differ by exactly one |
| Tx.MockSignerKeepsFields | internal/tx/builder_test.go:15-20 | the test signer keeps every built field |
| Tx.NonceIncrementScenario | internal/tx/builder_test.go:103-128 | three sends from one address get nonces 0, 1, 2 and the configured ETH fee |
| Tx.NoSignerScenario | internal/tx/builder_test.go:130-146 | without a signer the send fails, stores nothing and consumes the nonce |

## Left out

- Block numbers and nonces are unbounded `nat`s. The model does not capture `uint64` wrap-around, for example `number - depth - 1` or `blockNum + depth` near 2^64.
- Amounts and fees are `int`, not `*big.Int`. No arithmetic is done on them.
- `Start`, `Stop`, `pollLoop`, `StartAll`, `StopAll`, the ticker, the `done` channel and the closing of the event channel are left out. They are concurrency plumbing, and the model is single-threaded. The stores' mutexes are left out for the same reason.
- Context cancellation is not modelled:
  - the `ctx.Done()` early returns in `processBlock`, `handleReorg` and `checkConfirmations`;
  - context cancellation while `broadcastWithRetry` waits.

  Sending on the event channel is modelled as an append that always succeeds. The channel's capacity of 100 is not modelled either.
- The exponential backoff delay between broadcast attempts and all logging are left out. They are timing and I/O.
- A signer is an abstract function. Key derivation and the signing algorithms are not part of this model. The configuration loader is not part of this model either.
- The test fetcher returns a default block for a number it has no block for. Here a missing number makes `GetBlock` fail. This is the general fetcher contract, and it covers the error path.
- Tx.Builder.Send: does not model pointer aliasing. In Go the signer may return the very transaction it was given, and the store keeps a pointer to it. Here transactions are values.
- Listener.Manager.WatchAddress: wraps a store error in `WatchStoreFailed` where the source returns it unchanged. The memory store never fails, so no run tells the two apart.
- Tx.BroadcastWithRetry: with a non-positive bound the source fails wrapping a nil error. Here the failure is `BroadcastFailed(maxRetries)`. `NewBuilder` never lets the bound be non-positive.
