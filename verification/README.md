# microvllm: a verified model of the serving core

microvllm serves many text-generation requests with one model. A scheduler thread takes
requests from a bounded queue, packs pieces of many of them into one forward pass after
another, and pages their KV cache out of a pool of refcounted blocks. A prefix cache lets a
request inherit the KV of a prompt prefix that another sequence computed, or that a finished
request left behind in a reserved *donor* slot. When blocks run out, donors are given up
first and then the most recently admitted sequences are preempted and recomputed.

This project models that core in Dafny and proves what the server is for: a request gets the
answer it would get alone, nothing is lost, and the block accounting is exact, over every
interleaving of producers, the closer and the scheduler.

## How it is built

The system is a state machine on values (`Scheduling`): `Sys` holds the queue, the pending and
active requests, the slots, the block pool, the prefix cache, the engine's KV and the answers;
`Next` takes one atomic step and `IsRun` is every finite sequence of steps from the start.
Whatever the outside decides (who cancels, which pass throws and what it leaves behind, which
copy throws) is an argument of the step. The theorems are about this machine. The code's own
objects and loops (`Allocator`, `PrefixStore`, `StateMachine`, `Mock`, `Queue`,
`SchedulerLoop`, `StaticBatch`) are proved to do exactly what the machine does;
`Scheduler.Turn` ends in the statement that each turn of the scheduler's loop takes what there
is room for and then does exactly one iteration of the machine, so that it leads from a
reachable state to a reachable state.

| file | contents |
|---|---|
| `Types.dfy`, `StopText.dfy`, `Sequence.dfy` | requests; stop-string search; the per-request state machine on values |
| `Pool.dfy`, `Cache.dfy`, `Engine.dfy`, `Generator.dfy` | block pool, prefix cache, KV engine and run-to-completion reference on values |
| `Meaning.dfy` | what the reference answer is, without the state machine |
| `Scheduling.dfy` | the scheduler's steps and runs |
| `Batch.dfy`, `Invariants.dfy`, `Books.dfy`, `Donors.dfy`, `Limits.dfy` | one step: batch shape, structural invariant, request ledger, donor accounts, KV budget |
| `Independence.dfy`, `Faults.dfy`, `Causes.dfy` | one step: KV in sync with histories, failing passes, why an answer is not the reference |
| `Order.dfy`, `Moments.dfy` | one step: the line is never reordered; what holds at the moment of a lookup or a retirement |
| `Runs.dfy`, `Capacity.dfy` | the theorems over every run |
| `Reuse.dfy`, `Persistence.dfy`, `Takeover.dfy`, `Overwrites.dfy`, `TableSizes.dfy`, `Coverage.dfy` | over every run: how much a newcomer reuses, how long a prefix stays findable, when nothing is orphaned, how large a page table is, that everybody has the blocks it needs |
| `Configuration.dfy`, `Shortfalls.dfy` | constructor clamps; where the code does less than its comments say |
| `Allocator.dfy`, `PrefixStore.dfy`, `StateMachine.dfy`, `Mock.dfy`, `Queue.dfy`, `SchedulerLoop.dfy`, `StaticBatch.dfy` | the imperative code against the above |

`dafny verify dfyconfig.toml` checks everything.

## What the theorems assume

- The next token is a function of the sampling parameters and of the tokens before it, and
  `decode` writes KV at the positions it is given (the contract in
  `include/microvllm/model_engine.hpp`).
- A token submitted at a position below 0 is seen by the model on its own and leaves nothing in
  the KV.
- Where answers are compared with `generate_one`: the prefix hash separates the whole-block
  prefixes of the prompts in play (`CollisionFree`), the request's own prompt has at least one
  token, and no throwing pass of the run poisons a prefix-cache key (`FaultsAreContained`).
  Each of these is needed. `CollisionSpoilsAnAnswer` and `FailedPassSpoilsALaterAnswer` are
  reachable answers that are not the reference. `EmptyPromptIsAnsweredDifferently` is another,
  and `FirstStepSeesItsPromptIff` says that the first step is right exactly when the prompt is
  not empty. `FaultIsHarmlessIff` says that a throwing pass is harmless, whatever it leaves
  behind, exactly when it poisons no key, which is computed from the cache, the jobs and the
  batch before the pass; runs without throwing passes, without donors or without prefix caching
  are always of that kind (`WhenFaultsAreContained`).
- A donor slot counts as *orphaned* once the retained entry naming it was overwritten under
  the same key, and as *lost* once a retaining copy threw. Both are logged in `Sys`, so that
  the accounting is exact with them and the usual statement is the case where they are empty.
  Without donor slots, or if no two accepted requests share a whole-block prefix under the
  hash, nothing is ever orphaned (`NothingIsOrphaned`).

Where the code and its comments disagree the model follows the code: hash matches are not
verified by the caller, a shared block is never copied on write, a hit reserves as many
blocks as a miss, a failed retaining copy does not hand its slot back, and a failed sequence's
prefix is retained like any other.

## Model

| member | source | states |
|---|---|---|
| Runs.ScheduleIndependence | src/core/scheduler.cpp:368-650 | in every run, whatever the interleaving, chunking, prefix hits, deferrals, preemptions and cancellations of others, and whatever harmless faults occur, a delivered request with a prompt that ran to its own end has the text, reason and counts of `generate_one`; every answer has a reason, and none is an error unless a pass can throw |
| Causes.WhoFitsIsAnsweredInFull | src/core/scheduler.cpp:368-650 | in the same runs a delivered request with a prompt, that fits its context and the pool and that nobody cancelled, has exactly the answer of `generate_one` or, only if a pass of that run threw, an error: it is never rejected or truncated for lack of blocks, provided no retained entry was overwritten |
| Causes.EveryoneIsAnswered | src/core/scheduler.cpp:386-398 | when the loop returns and no pass threw, every accepted request of that kind is among the delivered ones with the answer of `generate_one` |
| Causes.EveryEndHasItsCause | src/core/scheduler.cpp:56-85 | in every run a cancelled answer belongs to a request that was cancelled, there is no error answer before a pass has thrown, and an overflow answer names a limit the request exceeds: its context, or the pool as long as no donor was orphaned |
| Meaning.ReferenceIsExact | src/core/generator.cpp:12-27 | the answer of `generate_one` is the text sampled up to the first count at which the model ends, the budget is used up or a stop string has appeared, cut in front of the stop string, with that count and that reason in this order of precedence |
| Runs.PrefixCacheIsSound | src/core/scheduler.cpp:457-468 | in the same runs, between iterations, a prefix-cache hit for any accepted request names a sequence whose KV at the hit's positions is that request's own prompt prefix |
| Moments.HitsAreSound | src/core/scheduler.cpp:401-468 | in the same runs, whenever an admission finds a hit, after donors were given up, the sequence it names holds the newcomer's own prompt prefix at that moment, and that is what the newcomer starts from |
| Runs.EveryRunIsInSync | src/core/scheduler.cpp:480-589 | in the same runs every sequence's KV is its own history, every cache entry's KV is the prefix that was hashed, and every answer is in order |
| Faults.FaultIsHarmlessIff | src/core/scheduler.cpp:570-589 | after an iteration whose pass throws the cache is sound, whatever the pass left in the KV of its batch, if and only if the iteration poisons no key: no retiring sequence that was in the batch, or had not prefilled what it stores, is the last to store under a key that is then still there |
| Faults.UnpoisonedIsSound | src/core/scheduler.cpp:570-589 | whatever the pass left, every entry but the poisoned ones holds the prefix it is stored under |
| Faults.PoisonedIsUnsound | src/core/scheduler.cpp:220-281 | there is something the pass can leave that makes every poisoned entry unsound at once |
| Faults.FaultIsHarmlessIffNobodyAtRisk | src/core/scheduler.cpp:220-281 | with a free donor slot for everyone and no shared keys the condition is that no sequence that retires with a working copy was in the batch or had not prefilled what it stores |
| Faults.LaterStoreCleans | src/core/block_allocator.cpp:126-134 | without those provisos being at risk does not suffice: a safe sequence that retires later under the same key replaces the entry, and nothing is poisoned |
| Faults.NoDonorsNoPoison | src/core/scheduler.cpp:220-232 | without donor slots or prefix caching nothing is ever poisoned |
| Faults.FaultyWorkSync | src/core/scheduler.cpp:570-589 | an iteration that poisons nothing keeps KV, cache and answers in sync, throwing or not |
| Runs.WhenFaultsAreContained | src/core/scheduler.cpp:570-589 | runs in which no pass threw, and all runs without donors or without prefix caching, contain their faults |
| Runs.RefcountsAreConserved | src/core/block_allocator.cpp:27-61 | in every reachable state a block's refcount is the number of page tables plus the number of donors that hold it, no table holds a block twice, and the free list is exactly the unreferenced blocks, each once |
| Runs.NoSilentIncref | src/core/block_allocator.cpp:57-61 | between iterations of any run every block of every cache entry has a reference, so an increment on it counts |
| Moments.AdoptionTakesEveryReference | src/core/scheduler.cpp:457-468 | whenever an admission of any run adopts a hit, every block of the entry has a reference at that moment, after donors were given up and the prompt's blocks reserved, and gains exactly one |
| Moments.RetentionTakesEveryReference | src/core/scheduler.cpp:220-281 | whenever a sequence retires in any run, every whole block of its prompt has a reference once a donor slot was made free, and storing the prefix adds exactly one to each |
| Runs.SlotsArePartitioned | src/core/scheduler.cpp:371-394 | free slots and active sequences partition the batch slots, pending requests never outnumber free slots, and donor ids lie above |
| Runs.EveryRequestIsInOnePlace | src/core/scheduler.cpp:383-394 | a request accepted once is in exactly one of queue, pending, active and delivered, once |
| Runs.ReturnMeansAllDelivered | src/core/scheduler.cpp:396-398 | the loop returns only when the queue is closed and empty and every accepted request was delivered, with or without failing passes |
| Runs.BatchesAreWellPlaced | src/core/scheduler.cpp:480-526 | every submitted item of a sequence with a prompt starts directly behind its sequence's KV, or over prompt tokens already there, and ends below the context limit unless the 32-bit check had wrapped |
| Runs.EveryRunIsWellFormed | src/core/scheduler.cpp:368-650 | the structural invariant and the request ledger hold at the end of every run, whatever faults occur |
| Capacity.DonorSlotsArePartitioned | src/core/block_allocator.cpp:82-168 | in every reachable state each donor slot is free, named by one retained entry listing exactly the blocks it pins, orphaned, or lost, and only one of these |
| Capacity.OrphansOnlyGrow | src/core/block_allocator.cpp:113-134 | an orphaned donor stays orphaned for the rest of the run |
| Capacity.IdleRestoresThePool | src/core/scheduler.cpp:294-301 | in every reachable idle state, giving up all donors that eviction can find frees the whole pool if and only if no retained entry was ever overwritten |
| Overwrites.NothingIsOrphaned | src/core/block_allocator.cpp:126-134 | without donor slots, or if no two accepted requests share a whole-block prefix under the hash, no donor is ever orphaned |
| Overwrites.IdleRestoresTheirPool | src/core/scheduler.cpp:294-301 | for such requests idling frees the whole pool once the donors are given up |
| Overwrites.WhoFitsAmongThemIsAnswered | src/core/scheduler.cpp:368-650 | for such requests whoever fits and is not cancelled has the answer of `generate_one` or, only if a pass of that run threw, an error |
| TableSizes.TableSizeIsExact | include/microvllm/block_allocator.hpp:170-176 | in every reachable state a table has the prompt's blocks plus the adopted ones, or the ceiling of its tokens if that is more; so it has exactly the promised ceiling if and only if the adopted blocks do not exceed what the tokens behind the prompt need |
| Capacity.AdmissionInEveryRun | src/core/scheduler.cpp:401-451 | the admission decision below, in every reachable state |
| Limits.AdmissionIsExact | src/core/scheduler.cpp:415-451 | the front request is admitted if and only if it has already failed or its prompt and the headroom fit beside what live sequences and orphans pin; otherwise it is rejected if and only if nothing runs, and else deferred with everything but donors intact |
| Limits.RejectedOnlyIfTooLarge | src/core/scheduler.cpp:429-445 | with nothing running and no orphan, rejection happens if and only if the prompt alone needs more blocks than the pool has |
| Limits.ExhaustionIsResolved | src/core/scheduler.cpp:595-633 | the starved sequence is never evicted and keeps its progress, finished ones stay, nobody is preempted while a donor can be given up, and it gets its blocks if and only if they fit beside what cannot be evicted |
| Limits.StarvedGetsItsBlocks | src/core/scheduler.cpp:624-632 | with no orphan and nobody else failed, every need that fits the pool is met |
| Limits.PreemptionIsLifo | src/core/scheduler.cpp:322-356 | from some point in the order of admission everyone but finished sequences and the starved one is preempted, nobody before it, and the requests are requeued in front in their old order |
| Order.AdmissionIsFifo | src/core/scheduler.cpp:401-475 | one admission loop serves a front part of the line in order: first whoever is turned away, only while nothing runs, then whoever is started |
| Order.LineIsNeverReordered | src/core/scheduler.cpp:341-353 | an iteration serves a front part of the line in order and puts only requests that were running in front of the rest, which keeps its order; whoever ran goes back there, runs on or is answered, exactly once |
| Order.QueueStepKeepsLine | src/core/scheduler.cpp:382-398 | accepted requests join at the end of the line, and taking from the queue leaves it alone |
| Limits.HeadroomHolds | src/core/scheduler.cpp:405-428 | if every table covers its tokens and an unfinished newcomer is admitted beside others, the accept loop of that iteration starves nobody |
| Coverage.EverybodyIsCovered | src/core/scheduler.cpp:591-644 | at the end of every run in which nothing was orphaned and all requests fit the pool, nobody active is finished and every page table covers its tokens, however short blocks were in between |
| Coverage.HeadroomInEveryRun | src/core/scheduler.cpp:401-451 | so in such a run an iteration that admits an unfinished newcomer beside running sequences starves nobody |
| Batch.BatchFits | src/core/scheduler.cpp:485-522 | a batch has at most `n_batch` tokens and one item per sequence, each the right continuation of its sequence, and leaves all others alone |
| Batch.DecodesAreNeverStalled | src/core/scheduler.cpp:491-503 | when the decoding sequences number at most `n_batch`, each has its token in the batch |
| Batch.BudgetIsUsed | src/core/scheduler.cpp:505-522 | no item exceeds the chunk size, and unless the batch is full every prefilling sequence has its whole next chunk in it |
| Batch.StepsMatchSampling | src/core/scheduler.cpp:526-531 | the k-th step the engine returns belongs to the k-th sampling sequence |
| Reuse.ReuseIsExact | src/core/scheduler.cpp:457-468 | whenever an admission of any run starts a sequence, it reuses the largest number of whole blocks of its prompt that the cache holds at that moment under their hash, one token kept back, and none if there are none |
| Persistence.RunningPrefixStaysFindable | src/core/scheduler.cpp:549-567 | in every run a running sequence's prefix stays findable for as long as no sequence with that prefix key leaves, whatever is admitted, evicted, preempted or retired besides |
| Persistence.FindableIffItsOwnerStays | src/core/scheduler.cpp:580-644 | once an iteration's tokens are accepted, and unless a sequence with the same prefix key retires, a running sequence's prefix is findable at the end of the iteration if and only if the sequence its entry names has not left |
| Persistence.RunningPrefixIsReused | src/core/scheduler.cpp:457-468 | and for that long every newcomer with such a prompt reuses all of its whole blocks |
| Persistence.EveryRunIsKeyed | src/core/scheduler.cpp:549-567 | in every run a live entry is stored under the hash and the length of its owner's whole blocks |
| Persistence.TakenOverThenGone | src/core/block_allocator.cpp:155-168 | preempting the last publisher of a prefix removes its entry although an earlier publisher still runs |
| Takeover.GoneWhileItsFirstOwnerRuns | src/core/scheduler.cpp:591-633 | a reachable state from which, in one step without any fault, a prefix stops being findable while the first sequence that published it runs on |
| Reuse.PublishedIsReused | src/core/scheduler.cpp:549-566 | directly after a running sequence has published its prompt, a request with the same prompt starts behind all of its whole blocks, with its blocks and its KV |
| Reuse.RetiredIsReused | src/core/scheduler.cpp:220-277 | the same directly after the sequence has retired into a donor slot |
| Sequence.StreamingIsExact | src/core/sequence_state.cpp:102-135 | for every token stream, piece table, stop list and cancellation pattern the deltas concatenate to the delivered text, which contains no stop string; a stop finish delivers exactly the text before the earliest match, any other finish of its own everything; and all of this for a stream that a failure cuts short at any point, which delivers nothing more and adds exactly one error notification |
| Sequence.AcceptKeepsStream | src/core/sequence_state.cpp:102-135 | one accepted token keeps the streaming invariant |
| Sequence.FinishKeepsStream | src/core/sequence_state.cpp:142-159 | so does the terminal flush |
| StopText.NewMatchIsHeldBack | src/core/sequence_state.cpp:83-88 | a match completed by new text starts no earlier than the withheld tail |
| StopText.FindEarliestStop | src/core/sequence_state.cpp:10-19 | the loop over stop strings finds the earliest position at which any of them occurs |
| StopText.FindMaxStopLen | src/core/sequence_state.cpp:24-30 | the loop finds the longest stop string's length |
| Sequence.ChunksAreConsecutive | src/core/sequence_state.cpp:50-75 | for any budgets and adopted prefix, prefill chunks run consecutively from the adopted count and only the one that completes the prompt samples |
| Sequence.ChunksComplete | src/core/sequence_state.cpp:62-75 | offered enough, the chunks concatenate to the rest of the prompt and the last one samples |
| Invariants.AcceptBounded | src/core/sequence_state.cpp:110-113 | accepting never takes the completion count past the token budget |
| BlockPool.BlocksForIsCeiling | src/core/block_allocator.cpp:19-21 | the block count is the ceiling |
| Shortfalls.BlockCountIsCeilingIff | src/core/block_allocator.cpp:19-21 | the block count the code computes in 32 bits is that ceiling if and only if the rounding sum does not wrap |
| BlockPool.EnsureCapacityKeepsPool | src/core/block_allocator.cpp:178-191 | a table grows if and only if its shortfall is free, otherwise nothing changes, and conservation holds either way |
| BlockPool.FreeKeepsPool | src/core/block_allocator.cpp:46-55 | releasing a table's blocks takes exactly its references away |
| BlockPool.ShareKeepsPool | src/core/block_allocator.cpp:193-201 | adopting a prefix of another holder's blocks adds exactly one reference each |
| BlockPool.FreePlusUsed | src/core/block_allocator.cpp:27-55 | free blocks and held blocks add up to the pool |
| Cache.LongestMatchIsLongest | src/core/block_allocator.cpp:92-111 | absent collisions the lookup returns the longest cached whole-block prefix of the query, and misses only if there is none |
| Cache.CacheRefinesRecencyList | src/core/block_allocator.cpp:92-168 | over any sequence of lookups, stores, evictions and forgets the map with ticks behaves as a list kept in order of use |
| Cache.CacheIsARecencyList | src/core/block_allocator.cpp:82-168 | so a new cache answers any sequence of calls as a recency list that starts empty |
| Cache.EvictLruRefines | src/core/block_allocator.cpp:136-153 | the evicted entry is the first retained one of that list |
| Cache.EvictSequenceRefines | src/core/block_allocator.cpp:155-168 | forgetting a sequence removes exactly its entries from the list |
| Cache.LruUnique | src/core/block_allocator.cpp:136-153 | ticks are unique, so the victim does not depend on the order in which the map is walked |
| Engine.DecodeIsPerSequence | include/microvllm/model_engine.hpp:64-96 | in a batch of distinct sequences each one's KV depends on its own item alone |
| Engine.StepSeesOwnHistory | include/microvllm/model_engine.hpp:64-96 | the step returned for a sequence is sampled from that sequence's history |
| Configuration.IdsAreAddressable | src/core/scheduler.cpp:92-132 | every batch slot and donor id is below a reported `n_seq_max`, and without one there are no donors |
| Configuration.DonorsAreApart | src/core/scheduler.cpp:115-136 | donor ids are disjoint from batch slots if and only if the requested batch size is positive or no donors are left |
| Configuration.BatchSizeZeroCollides | src/core/scheduler.cpp:131-136 | a requested batch size of 0 makes id 0 both a batch slot and a donor |
| Configuration.DefaultPoolCoversContext | src/core/scheduler.cpp:104-109 | the default pool covers the context, with the fewest blocks, if and only if its 32-bit rounding sum does not wrap |
| Shortfalls.RepeatedPromptOrphansADonor | src/core/block_allocator.cpp:126-134 | a reachable state in which the same request, served twice in sequence, has orphaned a donor |
| Shortfalls.ThenAPromptThatFitsIsRejected | src/core/scheduler.cpp:429-445 | from there an idle server rejects a prompt that needs exactly the pool |
| Shortfalls.FailedPassPoisonsTheCache | src/core/scheduler.cpp:220-277 | a reachable state after a failed pass in which a donor is stored for a prefix of which it holds nothing |
| Shortfalls.FailedPassSpoilsALaterAnswer | src/core/scheduler.cpp:457-468 | asked again, without a further fault and with no hashes colliding, the same question gets an answer by its own end that is not the reference |
| Shortfalls.CollisionSharesTheWrongPrefix | src/core/block_allocator.cpp:70-80 | a reachable state in which a colliding hash hands a prompt another prompt's KV |
| Shortfalls.CollisionSpoilsAnAnswer | src/core/scheduler.cpp:457-468 | where no pass can throw the second prompt is answered, by its own end, as the first would be |
| Shortfalls.FailedCopyLosesTheSlot | src/core/scheduler.cpp:265-269 | whenever a sequence retires in any run and its retaining copy fails, the slot is not handed back to the free donors and nothing holds it |
| Shortfalls.ContextCheckIsExactIff | src/core/scheduler.cpp:73-81 | the context check rejects exactly the requests that do not fit if and only if the 32-bit sum does not wrap to something that fits |
| Shortfalls.WrappedBudgetIsAdmitted | src/core/scheduler.cpp:74-75 | the largest token budget passes a context of one token |
| Shortfalls.SharingSavesNoBlocks | src/core/scheduler.cpp:415-468 | an admission takes the whole prompt's blocks off the free list, hit or no hit |
| Shortfalls.EmptyPromptIsFedAtMinusOne | src/core/scheduler.cpp:491-503 | an empty prompt is submitted as a decode at position -1 |
| Shortfalls.FirstStepSeesItsPromptIff | src/core/scheduler.cpp:480-526 | in the same runs the first token of a sequence is sampled from its own prompt, as in `generate_one`, if and only if the prompt is not empty |
| Shortfalls.EmptyPromptIsAnsweredDifferently | src/core/scheduler.cpp:490-502 | a reachable answer, by the request's own end, with no token where `generate_one` gives one |
| Allocator.BlockAllocator.constructor | src/core/block_allocator.cpp:8-17 | a new allocator has every block free, lowest id handed out first |
| Allocator.BlockAllocator.Allocate | src/core/block_allocator.cpp:27-44 | all or nothing, as the pool on values |
| Allocator.BlockAllocator.Free | src/core/block_allocator.cpp:46-55 | as the pool on values: double frees and foreign ids change nothing |
| Allocator.BlockAllocator.Incref | src/core/block_allocator.cpp:57-61 | as the pool on values: skipped without a reference |
| Allocator.BlockTable.EnsureCapacity | src/core/block_allocator.cpp:178-191 | as the table on values |
| Allocator.BlockTable.AdoptSharedPrefix | src/core/block_allocator.cpp:193-201 | as the table on values |
| Allocator.BlockTable.Release | src/core/block_allocator.cpp:203-211 | drops exactly this table's references and empties it |
| PrefixStore.PrefixCache.ConfigureDonors | src/core/block_allocator.cpp:82-90 | the free donors are exactly the configured ids, lowest taken first |
| PrefixStore.PrefixCache.FindLongest | src/core/block_allocator.cpp:92-111 | as the cache on values, touching what it returns |
| PrefixStore.PrefixCache.Insert | src/core/block_allocator.cpp:113-115 | as the cache on values |
| PrefixStore.PrefixCache.TakeDonorSlot | src/core/block_allocator.cpp:117-124 | pops the top free donor, if any |
| PrefixStore.PrefixCache.Retain | src/core/block_allocator.cpp:126-134 | as the cache on values, replacing whatever was there |
| PrefixStore.PrefixCache.EvictLruRetained | src/core/block_allocator.cpp:136-153 | in whatever order the map is walked, evicts the least recently used donor, if and only if there is one |
| PrefixStore.PrefixCache.EvictSequence | src/core/block_allocator.cpp:155-168 | in whatever order the map is walked, removes exactly the sequence's entries and frees its slot once per donor entry |
| PrefixStore.PrefixCache.Clear | src/core/block_allocator.cpp:170-173 | everything but the tick starts over |
| StateMachine.SequenceState.constructor | src/core/sequence_state.cpp:34-42 | a new state machine is the new state on values |
| StateMachine.SequenceState.AdoptCachedPrefix | src/core/sequence_state.cpp:50-56 | as on values: one prompt token is always kept back |
| StateMachine.SequenceState.TakePrefillChunk | src/core/sequence_state.cpp:62-75 | as on values |
| StateMachine.SequenceState.NextItem | src/core/sequence_state.cpp:44-81 | the pending token at the position derived for it |
| StateMachine.SequenceState.FlushUpto | src/core/sequence_state.cpp:90-95 | as on values |
| StateMachine.SequenceState.Accept | src/core/sequence_state.cpp:102-135 | as on values, and says whether another step is needed |
| StateMachine.SequenceState.Fail | src/core/sequence_state.cpp:137-140 | as on values |
| StateMachine.SequenceState.Finish | src/core/sequence_state.cpp:142-159 | as on values, notifying once |
| StateMachine.GenerateOne | src/core/generator.cpp:12-27 | the loop ends with exactly the reference outcome and leaves the engine without the sequence and otherwise as it was |
| StateMachine.KvEngine.DecodeBatch | include/microvllm/model_engine.hpp:64-96 | the engine contract as an object |
| Mock.MockEngine.Decode | src/engine/mock_engine.cpp:55-112 | a pass over the batch, up to the first unknown sequence, as on values |
| Mock.MockEngine.CopySequence | src/engine/mock_engine.cpp:118-137 | the destination inherits that prefix of the source's prompt tokens |
| Mock.MockEngine.ReplyOf | src/engine/mock_engine.cpp:91-101 | the reply is the fixed text, or the prompt without start tokens |
| Mock.ThrowsOnlyIfUnknown | src/engine/mock_engine.cpp:62-65 | a pass throws if and only if some item's sequence was never begun |
| Mock.OneStepPerSample | src/engine/mock_engine.cpp:84-109 | one step per sampling item, in order |
| Mock.PassIsPerSequence | src/engine/mock_engine.cpp:55-112 | a sequence is advanced by its own item alone |
| Mock.ChunksRebuildThePrompt | src/engine/mock_engine.cpp:78-82 | however a prompt is chunked and whatever prefix was copied, the sequence ends up holding exactly its prompt |
| Mock.RepliesInOrder | src/engine/mock_engine.cpp:103-109 | the k-th sampled token is the k-th of the reply, then the end token |
| Mock.AppendIsWriteIff | src/engine/mock_engine.cpp:78-82 | appending an item is writing it at its position if and only if it is empty or starts directly behind what is held |
| Mock.WholePromptHitRepeatsTheLastToken | src/engine/mock_engine.cpp:78-82 | after a hit on a whole prompt this engine replies with the last prompt token twice |
| Queue.NothingIsLostOrReordered | src/core/request_queue.cpp:7-38 | in every interleaving what was handed out followed by what is queued is what was accepted, in order, and the length never exceeds the capacity |
| Queue.EmptyHandedMeansDrained | src/core/request_queue.cpp:19-28 | a waiting pop returns nothing only after the close, with everything accepted handed out, and nothing is accepted afterwards |
| Queue.RequestQueue.TryPush | src/core/request_queue.cpp:7-17 | refuses if and only if closed or full, and then changes nothing |
| Queue.RequestQueue.Pop | src/core/request_queue.cpp:19-28 | takes the front, or nothing if and only if closed and empty |
| Queue.RequestQueue.TryPop | src/core/request_queue.cpp:30-38 | takes the front, or nothing if empty |
| Queue.RequestQueue.PushFront | src/core/request_queue.cpp:40-50 | puts the request in front unless closed, whatever the capacity |
| Queue.RequestQueue.Close | src/core/request_queue.cpp:52-59 | closes and keeps what is queued |
| SchedulerLoop.Scheduler.constructor | src/core/scheduler.cpp:87-137 | a new scheduler has the clamped configuration and is in the initial state, with its donor ids behind the batch slots unless a batch size of 0 was asked for |
| Configuration.Clamp | src/core/scheduler.cpp:92-136 | the clamps in the constructor's order give the configuration and the first donor id |
| SchedulerLoop.Scheduler.ReclaimDonorBlocks | src/core/scheduler.cpp:283-301 | gives up the least recently used donor with its blocks, KV and slot, if and only if there is one |
| SchedulerLoop.Scheduler.AdmitOne | src/core/scheduler.cpp:401-474 | decides the front request exactly as the machine does |
| SchedulerLoop.Scheduler.AdmitPending | src/core/scheduler.cpp:401-475 | the admission loop is the machine's |
| SchedulerLoop.Scheduler.BuildBatch | src/core/scheduler.cpp:485-522 | the two loops build the machine's batch |
| SchedulerLoop.Scheduler.AcceptSampled | src/core/scheduler.cpp:528-568 | the accept loop is the machine's, with the same starved sequences |
| SchedulerLoop.Scheduler.FailEverything | src/core/scheduler.cpp:570-578 | every unfinished sequence fails |
| SchedulerLoop.Scheduler.RetainInDonor | src/core/scheduler.cpp:220-280 | retaining a prefix, with or without eviction, overwrite or failing copy, is the machine's |
| SchedulerLoop.Scheduler.Retire | src/core/scheduler.cpp:196-213 | retiring a sequence is the machine's |
| SchedulerLoop.Scheduler.RetireFinished | src/core/scheduler.cpp:580-589 | the sweep is the machine's |
| SchedulerLoop.Scheduler.PreemptOne | src/core/scheduler.cpp:322-356 | the newest unfinished sequence but the excepted one is evicted, if there is one |
| SchedulerLoop.Scheduler.ReclaimForJob | src/core/scheduler.cpp:617-622 | the donor loop is the machine's |
| SchedulerLoop.Scheduler.PreemptForJob | src/core/scheduler.cpp:624-632 | the preemption loop is the machine's |
| SchedulerLoop.Scheduler.ResolveExhaustion | src/core/scheduler.cpp:595-633 | the loop over starved sequences is the machine's |
| SchedulerLoop.Scheduler.RunIteration | src/core/scheduler.cpp:400-644 | everything after work was taken is the machine's `Work`, and the invariant holds again |
| SchedulerLoop.Scheduler.TakeFrom | src/core/scheduler.cpp:382-398 | takes in order what there is room for, and is done only if the queue is closed and empty |
| SchedulerLoop.Scheduler.Turn | src/core/scheduler.cpp:381-649 | takes from the queue what there is room for and does exactly one iteration of the machine, or is done, if and only if nothing is then in hand; so from a reachable state it leads to a reachable state, and it is done only when everything accepted was delivered |
| SchedulerLoop.Scheduler.Submit | src/core/request_queue.cpp:7-17 | a producer's push leads from a reachable state to a reachable state and logs exactly what it accepted |
| SchedulerLoop.Scheduler.Shut | src/core/request_queue.cpp:52-59 | closing the queue leads from a reachable state to a reachable state |
| StaticBatch.RunBatch | src/core/scheduler.cpp:652-778 | every member is answered once, in order: exactly those whose context or blocks do not suffice are rejected, everyone else not cancelled gets the answer of `generate_one` or, only if a pass threw, an error; by the engine's own record the passes run are prefills, which submit every admitted prompt exactly once, whole and in order, and then decodes, which submit only generated tokens and number at most the largest budget, and they stop early exactly at the first pass that throws; the whole pool is free again; and the engine keeps of the batch exactly the rejected members, or nobody if a pass threw |
| StaticBatch.RunStatic | src/core/scheduler.cpp:168-176 | on a closed queue batch after batch until it is drained: everybody in it is answered once and in order, each as its own batch of `max_batch_size` decides: rejected exactly if that batch has no room, and otherwise, unless cancelled or unless a pass of that batch threw, as `generate_one`; and the whole pool is free at the end |
| StaticBatch.AdmitBatch | src/core/scheduler.cpp:659-677 | exactly the members whose whole life fits into what the earlier ones left are admitted, with their blocks reserved |
| StaticBatch.ReservationCovers | src/core/scheduler.cpp:666-668 | the reservation covers every position a member is given, unless the 32-bit sum had wrapped |
| StaticBatch.NextSlice | src/core/scheduler.cpp:684-709 | whole prompts up to `n_batch` tokens, or a single one, nobody skipped; it ends only at the end of the batch or where the next unfinished prompt would exceed `n_batch` |
| StaticBatch.PrefillAll | src/core/scheduler.cpp:679-723 | by the engine's own record the prompts submitted are exactly those of the unfinished members, each once, whole, at position 0 and in order, and everyone has accepted a first token, up to the first pass that throws |
| StaticBatch.FailBatch | src/core/scheduler.cpp:755-766 | after a pass that threw whoever was still running ends with an error, and no member is left in the engine |
| StaticBatch.DecodeAll | src/core/scheduler.cpp:725-754 | everyone ends, in at most as many passes of the engine as the largest budget, each submitting only generated tokens, unless a pass throws, which is then the last |
| StaticBatch.DeliverAll | src/core/scheduler.cpp:768-776 | every table is given back and every member answered in order |
| StaticBatch.NextBatch | src/core/scheduler.cpp:139-158 | waits for one request and takes what else is there, in order, up to a batch; nothing only if closed and empty |

## Left out

- Liveness of whole runs ("every request eventually finishes"): two sequences can preempt each other repeatedly, so only the termination of each loop is proved.
- Streamed deltas across a preemption: a sink is reused when its request starts over, so the streaming theorem is about one `SequenceState`.
- SchedulerLoop.Scheduler.Turn: a job's state machine and page table are values in the scheduler's map, addressed by slot, so pointer identity and aliasing between jobs are not captured; the objects themselves are `SequenceState` and `BlockTable`.
- SchedulerLoop.Scheduler.TakeFrom: pushes between two pops of the same filling loop are steps of `IsRun` but not of this method.
- Runs.ScheduleIndependence: excludes runs in which a throwing pass poisons a key (see `FailedPassPoisonsTheCache` and `FaultIsHarmlessIff`), and says of a request with an empty prompt only that its answer has a reason.
- Configuration.DonorsAreApart: the runs of the machine start donor ids at the batch size, so the colliding configuration is shown here and not run.
- BlockPool.EnsureCapacityKeepsPool: `blocks_for` is over unbounded integers; where the 32-bit sum of token count and block size does not wrap that is what the code computes (`BlockCountIsCeilingIff`).
- StaticBatch.RunStatic: the queue is closed; pushes while the loop runs are not interleaved with it.
- Exceptions other than those of a forward pass and of the copy that retains a prefix (allocation failures, a throwing tokenizer or sink).
- Mock.MockEngine.Decode: the sleep per item and the two counters of copied and prefilled tokens are not modelled.
- The mock as an instance of the abstract engine: its reply depends on how much it has sampled and not only on the token history, so it is related to KV by position, not to the token function.
- `src/engine/llama_engine.cpp`: calls into llama.cpp; the contract of `IModelEngine` stands for it.
- `src/http`, `src/main.cpp`, sinks' mutexes, timing, histograms, statistics and pool utilization: would only add easy members.
- The arithmetic of `hash_prefix` and of sampling: opaque functions of the backend.
- Benchmarks, scripts, container and deployment files.
