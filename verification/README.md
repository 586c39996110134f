# Verification of the price server's runtime, cache, batch pipeline and token store

The service answers token price questions over HTTP. This project models, and proves properties of, the
parts of it whose correctness lies in interleavings and in data that is taken apart and put together again.

* **Lookup supervisor and background warmup** (`Asyncio`, `Warmup`, `Supervisor`, `Runtime`,
  `RuntimeSafety`, `RuntimeDrain`). The two objects of `src/runtime.py`, wired as `src/server.py` wires them,
  are classes whose methods are proved equal to functions on values. Those functions are the steps of a
  transition system: a step is the code between two suspensions, or one callback. `asyncio` tasks and the
  FIFO semaphore of Python 3.12 are a contract, stated in `Asyncio`: a permit that is given back goes to the
  first pending waiter, a resuming waiter hands on spare permits, and a waiter cancelled after its grant
  gives the permit back. A task may react to a cancel request at any time and may end either way.
* **Deadline middleware** (`Deadline`). The race of the application, a timer and the client, with the
  buffer of the application's messages and the one-slot queue of the client's.
* **Price cache and handlers** (`Cache`, `Pricing`, `Handlers`). A shared store that may lose entries, miss
  reads and drop writes; an oracle, asked pointwise, that does not care about the case of a token; `/price`
  and `/prices` requests interleaved wherever they await something; the batch path with its two
  scatter/gather splits as loops over sequences.
* **Batch parameters** (`Params`, on top of `Text`). The comma-separated lists and their inverse.
* **Token lists** (`TokenIndex`, `TokenSearch`, `TokenStore`). The two-level index with its USD entries,
  the ranked search, and the store whose lists are shared objects, with the repair of saved pairs.

Where code and documentation differ, the model follows the code:

* The README of the service says that tokens which fail pricing give a null price in a 200 answer. That
  holds for an unavailable or invalid price; a transient failure fails the whole batch
  (`src/server.py:1182-1191`).
* An invalid price (infinite, NaN or negative) is null in a batch and 502 on its own
  (`src/server.py:749-756`, `src/server.py:673-676`); `Handlers.BatchRefinesSingle` states the agreement of
  the two endpoints with this case in it.
* The comment in `removeList` speaks of pairs whose token came solely from the removed list; the code resets
  every pair of a known chain that no longer resolves, and none at all if the list's key is 'default'.
* The signal handler is meant to stop the warmup for good. A signal that lands inside `resume`, after its
  check and before the new task is stored, leaves a job running that nobody has asked to stop
  (`RuntimeDrain.SignalLeavesJobUnasked`); it is asked when the next lookup starts.
* "Timed out after the budget" can be answered before the budget is over, if the client's channel raises
  (`Deadline.TimedOutEarly`).
* "Queue is full" can be answered while a permit is free: the permits that are free are kept for callers
  ahead (`RuntimeSafety.RefusedBesideFreePermit`).

## Model

| member | source | states |
|---|---|---|
| Warmup.RestartsSafely | src/runtime.py:28-57 | For every run of pauses, resumes, cancels, job ends and late callbacks: no two jobs unfinished, all but the last cancelled, a resume never lost, a pause never without a cancel request |
| Warmup.NeverStartedAgain | src/runtime.py:33-53 | In every run, work that ended uncancelled is not started again, even if `resume` precedes its callback; nothing starts after `cancel` |
| Warmup.StartsAfterCancelled | src/runtime.py:33-53 | A start happens only on an open, resumed, not completed object all of whose jobs were cancelled |
| Warmup.FinishedKeeps | src/runtime.py:48-53 | A callback, however late, leaves a resumed, open object completed or running, and starts nothing on a paused or closing one |
| Warmup.OnlyPauseAsks | src/runtime.py:28-57 | A running job is asked to cancel by `pause` and `cancel`, and nothing but its own end touches a job otherwise |
| Warmup.SignalInsideResume | src/runtime.py:33-46 | `cancel` called by the signal at any statement of `resume`: nothing starts once the call is over; a job runs on unasked if and only if the signal came between the check that let it start and the new task being stored, and until the next `pause` or `cancel` |
| Warmup.BackgroundWarmup.constructor | src/runtime.py:21-26 | The object starts paused, without a job |
| Warmup.BackgroundWarmup.Pause | src/runtime.py:28-31 | The whole new state of `pause`, as the step function that the run lemmas are about |
| Warmup.BackgroundWarmup.Resume | src/runtime.py:33-46 | The whole new state of `resume`, likewise |
| Warmup.BackgroundWarmup.Finished | src/runtime.py:48-53 | The whole new state after a job's callback, likewise |
| Warmup.BackgroundWarmup.Cancel | src/runtime.py:55-57 | The whole new state of `cancel`, likewise |
| Supervisor.LookupSupervisor.constructor | src/runtime.py:71-86 | All permits free, nothing queued, the warmup bound as the callbacks |
| Supervisor.LookupSupervisor.Run | src/runtime.py:88-112 | `run` up to its first suspension: refusal, queueing or start, as the step function of the system |
| Supervisor.LookupSupervisor.RunAcquired | src/runtime.py:93-112 | `run` from the end of `acquire`: granted, cancelled, cancelled after the grant, or closing meanwhile |
| Supervisor.LookupSupervisor.StartLookup | src/runtime.py:104-112 | A caller with a permit pauses the warmup and owns a new lookup |
| Supervisor.LookupSupervisor.RunInterrupted | src/runtime.py:113-117 | A caller cancelled while awaiting cancels its lookup, and the slot stays taken |
| Supervisor.LookupSupervisor.Finished | src/runtime.py:119-124 | The callback gives up the lookup and its slot, then resumes the warmup if idle |
| Supervisor.LookupSupervisor.ResumeWhenIdle | src/runtime.py:126-128 | Resumes exactly when open, with nothing owned and nothing queued |
| Supervisor.LookupSupervisor.Cancel | src/runtime.py:130-133 | Closes and asks every owned lookup to cancel, by the loop over them |
| RuntimeSafety.PermitConservation | src/runtime.py:88-124 | In every reachable state free permits, permits granted to callers that have not resumed, and owned lookups add up to `active` |
| RuntimeDrain.ReleasedExactlyOnce | src/runtime.py:110-124 | In every run each lookup's slot is released once if it is no longer owned, and not yet if it is |
| RuntimeSafety.QueueAccounting | src/runtime.py:89-102 | `queued` is the number of callers inside `acquire`, cancelled ones included, never above the limit; grants sit ahead of pending callers |
| RuntimeSafety.RefusedExactly | src/runtime.py:89-92 | A newcomer is refused exactly when closing, or when the queue is full and either no permit is free or one is set aside for a caller that has not resumed |
| RuntimeSafety.ArrivesExactly | src/runtime.py:89-93 | A newcomer starts at once if and only if the supervisor is open, a permit is free and none is set aside; otherwise it is refused, or queued behind everybody |
| RuntimeSafety.StartsExactly | src/runtime.py:88-112 | A step starts a lookup if and only if it is such an arrival, or a caller resuming with its permit while the supervisor is open; it starts one, awaited and not asked to cancel |
| RuntimeSafety.RefusedBesideFreePermit | src/runtime.py:89-90 | A reachable state in which a newcomer is refused although a permit is free |
| RuntimeSafety.NobodyOvertakes | src/runtime.py:89-124 | No step passes over a caller that stays pending: a lookup that starts is that of a caller in front, and no caller behind is granted a permit, whoever gave it back |
| RuntimeSafety.FirstComeFirstServed | src/runtime.py:89-124 | In every run, of two callers queued in order the later is granted a permit only if by then the earlier was granted one or was cancelled |
| RuntimeSafety.AskedExactly | src/runtime.py:104-133 | A running lookup has been asked to cancel if and only if its caller left or the supervisor is closing |
| RuntimeSafety.LookupAfter | src/runtime.py:88-133 | A step leaves every lookup alone but the one it is about; a lookup is given up only by its own callback, and closing asks all and does nothing else |
| RuntimeSafety.ForegroundPriority | src/server.py:366-373 | While a lookup is owned the warmup is paused, and an unfinished job has a cancel request out |
| RuntimeSafety.PausedExactlyWhenBusy | src/server.py:415-417 | Both open, the warmup is paused if and only if a caller is queued or a lookup owned |
| RuntimeSafety.NoLostResume | src/runtime.py:126-128 | Idle and open, the warmup is resumed and completed, running, or about to be by a callback |
| RuntimeSafety.WarmupNeverOverlaps | src/runtime.py:33-46 | In the whole system, every job but the last was cancelled |
| RuntimeSafety.WarmupStartsOnlyWhenIdle | src/runtime.py:33-53 | A step that starts the work ends with nothing owned and nothing queued, warmup open, earlier jobs all cancelled |
| RuntimeDrain.PendingIsServed | src/runtime.py:88-124 | No lost wakeup: a pending caller has a granted caller or an owned lookup in front that can step |
| RuntimeDrain.DepartingLowers | src/runtime.py:88-128 | Every step of callers and lookups but an arrival strictly lowers a measure |
| RuntimeDrain.QuietExactlyWhenDrained | src/runtime.py:88-128 | Nothing can move if and only if no lookup is owned, nobody is queued and all permits are free |
| RuntimeDrain.NoSlotsNoService | src/runtime.py:80-93 | With no slots a queued caller is stuck, so the condition `active > 0` is needed |
| RuntimeDrain.ServiceTerminates | src/runtime.py:88-128 | With nobody newly admitted, a run has at most `Measure` departing steps and can only stop drained |
| RuntimeDrain.DrainTerminates | src/runtime.py:89-138 | After `cancel` no lookup starts, those left have been asked to cancel, the run is bounded, and it can only stop drained |
| RuntimeDrain.WarmupStaysDown | src/server.py:56-66 | After a signal that lands between two steps no warmup job starts in any run |
| RuntimeDrain.SignalInsideStep | src/server.py:376-386 | A signal landing anywhere inside a call of `resume`: after that step no job starts and the warmup yields to every lookup; exactly one place leaves a job unasked, and it is asked when the next lookup starts |
| RuntimeDrain.SignalLeavesJobUnasked | src/server.py:376-386 | A reachable step in which a signal at that place leaves a job running that nobody has asked to stop |
| Runtime.ResumesExactly | src/runtime.py:48-53 | The steps that call `resume`, of a departing caller, a lookup's callback or a cancelled job's callback, and that no other step starts a job |
| RuntimeDrain.LookupsIgnoreWarmup | src/server.py:61-66 | In any run, signal and warmup callbacks included, callers and lookups fare as they do in its lookup events alone beside any other warmup, so the signal leaves the queue served |
| Deadline.OneResponse | src/runtime.py:158-196 | In every reachable state the client has the start of the buffer or the start of the 504, never parts of both |
| Deadline.Verdict | src/runtime.py:158-202 | What each way of ending means, in terms of the run: everything the application sent, in order; the whole 504; or nothing to a client that left. The watcher has ended and an application that runs on has been asked to cancel |
| Deadline.Recorded | src/runtime.py:160-163 | In every run the buffer is what the application sent, in order, and nothing the client did is lost from the record |
| Deadline.Noticed | src/runtime.py:210-221 | In every run the disconnect event is set if and only if a disconnect has come; likewise the timer and the end of the application |
| Deadline.DecidedOnce | src/runtime.py:180-202 | In every run the race is decided at most once, and an outcome other than failure was settled by what had happened before: the response if and only if the application had returned, the 504 if and only if it had not ended and no disconnect had come, nothing if and only if one had; a 504 means that the timer had fired or the client's channel had raised |
| Deadline.LateSendsAreBuffered | src/runtime.py:160-163 | Once the handler turned away, no later run brings an application message to the client |
| Deadline.TimeoutDoesNotWait | src/runtime.py:180-202 | After the timer, or once the watcher has failed, the handler alone sends the whole 504 and finishes, the application still running |
| Deadline.ReplyDoesNotWait | src/runtime.py:183-186 | Once the application returned, the handler alone sends everything it collected, in order, and finishes |
| Deadline.GoneDoesNotWait | src/runtime.py:187-202 | Once the client left, with the application running, the handler alone asks it to cancel and finishes, having sent nothing |
| Deadline.TimedOutEarly | src/runtime.py:180-196 | A run that ends with the 504 although the timer never fired: the client's channel raised |
| Deadline.ArrivesInQueue | src/runtime.py:213-221 | What the client sends is in the queue at once if there is room, a disconnect always; the watcher holds back only a request that finds it full |
| Deadline.DisconnectGetsThrough | src/runtime.py:210-221 | In every run the queue keeps what the client sent in order; a disconnect comes last and pushes out at most one message |
| Deadline.Exchange.constructor | src/runtime.py:160-178 | Empty buffer and queue, application and watcher running |
| Deadline.Exchange.Collect | src/runtime.py:162-163 | Appends to the buffer and changes nothing else |
| Deadline.Exchange.Watch | src/runtime.py:213-221 | One turn of the watcher's loop, as the step function of the race |
| Deadline.Exchange.Decide | src/runtime.py:180-189 | The handler after the wait, as the step function of the race |
| Deadline.Exchange.SendNext | src/runtime.py:185-196 | The next message of the buffer or of the 504, and only that, goes out |
| Cache.KeyRoundTrip | src/cache.py:58-59 | Decoding at the last colon inverts `make_key` for arbitrary tokens, up to case |
| Cache.KeyInjective | src/cache.py:58-59 | Two keys are equal if and only if the blocks are and the tokens are up to case |
| Text.LowerExactly | src/cache.py:58-59 | Case folding turns each capital letter into the small one and keeps every other character |
| Cache.DecodesExactly | src/cache.py:163-168 | A key decodes to a token and a block if and only if it is the token, a colon and a numeral of that block without a colon |
| Cache.CanonicalExactly | src/cache.py:163-168 | The keys that decode and encode back to themselves are exactly those `make_key` makes |
| Cache.ListedExactly | src/cache.py:142-173 | Over a store built by this module's writers the listing has exactly the live no-price pairs, each with its entry, each once |
| Cache.ListedFromAnyStore | src/cache.py:142-173 | Over any store, legacy errors and foreign keys included, the rows are what the live keys of entries without a price decode to |
| Cache.WritersBuild | src/cache.py:106-139 | The two writers keep a store of that kind |
| Cache.ReadAfterWrite | src/cache.py:62-139 | A kept write is what the next read of the same block and token, in any case of letters, returns, a price as a price and an absence as an absence, a legacy error as neither; other reads are not disturbed; a read that does not get through returns nothing |
| Cache.PriceCache.GetCachedPrice | src/cache.py:62-80 | A price it returns is that of a price entry whose key decodes to this block and this token up to case |
| Cache.PriceCache.GetCachedError | src/cache.py:83-103 | An error it returns is that of a definitive no-price entry whose key decodes to this block and this token up to case |
| Cache.PriceCache.SetCachedPrice | src/cache.py:106-119 | Writes the price under the key, or is dropped |
| Cache.PriceCache.SetCachedError | src/cache.py:122-139 | Writes the no-price entry under the key, or is dropped |
| Cache.PriceCache.GetCachedErrors | src/cache.py:142-173 | The rows of `Rows`, by the loop over the keys |
| Pricing.WriteKeepsCoherent | src/server.py:693-694 | Writing the oracle's answer to a spot question keeps every entry true of the oracle |
| Pricing.CheckToken | src/server.py:1032-1037 | A token is looked up in the cache only without an amount |
| Pricing.PrepareBatchCacheCheck | src/server.py:1016-1054 | Hits in place, placeholders exactly at the misses, the misses' tokens and indices in order |
| Pricing.IndicesWhere | src/server.py:713-714 | Exactly the places with, or without, an amount, in order |
| Pricing.Scatter | src/server.py:724-727 | Values land at their indices and nowhere else |
| Pricing.Stitched | src/server.py:713-728 | The spot half and the quote half, put back, give each token its own answer and leave no placeholder |
| Pricing.LookupBatchPrices | src/server.py:698-728 | Result i is the oracle's answer for exactly token i and amount i |
| Pricing.FetchBatchPrices | src/server.py:731-760 | Result i is that price if finite and not negative, otherwise none |
| Pricing.FillBatchResults | src/server.py:1057-1089 | Every placeholder is filled with its own price, hits stay, and only prices without an amount are written |
| Pricing.FilledCoherent | src/server.py:1087-1089 | Those writes keep the store true of the oracle |
| Pricing.FilledReads | src/server.py:1087-1089 | What a batch's writes leave to be read: the last kept price for that token and block with the batch's time stamp, and everything else as it was |
| Pricing.Prices | src/server.py:1164-1205 | Whatever the cache holds, in full: element i carries token i and the cached price and time stamp on a hit, otherwise the valid price for (token i, amount i) or null and the time stamp fetched for all; fetched spot prices whose writes are kept are what is read then; a store that is true of the oracle stays so |
| Handlers.CheckCaches | src/server.py:882-928 | Answers from the cache exactly as the interleaved model starts a request; a no-price entry answers only without `force` |
| Handlers.FetchPrice | src/server.py:668-678 | None, invalid or a price, exactly as the interleaved model goes on |
| Handlers.CachePrice | src/server.py:692-695 | Only a spot price is written |
| Handlers.CacheMiss | src/server.py:944-953 | Only the absence of a spot price is written |
| Handlers.HandlePriceRequest | src/server.py:881-981 | Whatever the cache holds, the answer exactly: what it has for this spot question, otherwise a failure or the uncached answer; a kept price with its time stamp, or a kept absence, is what the next read returns, and nothing else is written; over a store true of the oracle the answer has the uncached status and price, and the store stays so |
| Handlers.CacheRefinesOracle | src/server.py:881-957 | For every interleaving over a lossy store: the store stays true of the oracle and every answer has the status and price of the uncached one |
| Handlers.StampsArrived | src/server.py:688-695 | For every interleaving: a `block_timestamp` that is stored, read or answered for a block is missing, or was known for that block at the start, or arrived for it |
| Handlers.OnlySpotAnswersAreWritten | src/server.py:688-695 | A step that changes an entry writes the answer to a spot question with that key |
| Handlers.LookupsAreKept | src/server.py:692-695 | Over the interleaved steps: a kept price is read back with its time stamp, a kept absence with its error, for the token in any case of letters; all other reads stay as they were |
| Handlers.BatchIsKept | src/server.py:1057-1089 | Over the interleaved steps: each price a batch fetched without an amount, if kept, is read back with the batch's time stamp, and each element it looked up carries that stamp |
| Handlers.Remembers | src/server.py:882-920 | What was written, time stamp or lack of one included, is served to the next request in any case of letters; `force` passes over no-price entries only |
| Handlers.RemembersBatch | src/server.py:1032-1045 | A batch all of whose tokens are cached is answered at once with the cached prices and time stamps, without a lookup |
| Handlers.BatchRefinesSingle | src/server.py:1149-1222 | Over all runs, batch element i is price p if and only if `/price` answers 200 with p, and null if and only if it answers 404 or 502 for an invalid price; null and 404 coincide if and only if the oracle gave no invalid price |
| Handlers.InvalidPriceDiffers | src/server.py:673-676 | For any token and amount, an oracle and a run in which `/price` ends with 502 and the element of `/prices` is null |
| Params.ReadTokens | src/params.py:311-341 | The loop computes `ParseTokens`, first bad position and all |
| Params.TokensParsedExactly | src/params.py:311-341 | The answer for a text of tokens exactly: its non-blank segments stripped and in order, or the first that is no token with its position, or none, or too many |
| Text.StripExactly | src/params.py:328-329 | Stripping cuts off the blanks at both ends and nothing else |
| Text.JoinSplit | src/params.py:325 | Joining inverts splitting |
| Params.TokensAreAddresses | src/params.py:325-333 | Accepted tokens are 42-character addresses; the error names a segment that is none |
| Params.ReadAmounts | src/params.py:274-308 | The loop computes `ParseAmounts`, blank segments as missing amounts |
| Params.SuccessIsWellFormed | src/params.py:344-400 | Every success has 1 to 100 addresses, as many amounts, all positive, a block in range, and not both block and timestamp |
| Params.BatchParsedExactly | src/params.py:344-400 | Parsing succeeds with given parameters if and only if each text stands for its own, there are 1 to 100 tokens, as many amounts if any, and not both a block and a timestamp |
| Params.ComplainsInOrder | src/params.py:364-391 | What each complaint means, and that they come in the order tokens, block, amounts, their number, timestamp, both |
| Params.ParsedExactly | src/params.py:274-308 | A text parses to a list of amounts if and only if it is not empty and its segments stand for those amounts one by one |
| Params.WritableExactly | src/params.py:274-308 | A list of amounts is what some text parses to if and only if it is not empty and each amount has a text that stands for it |
| Params.BatchRoundTrip | src/params.py:344-400 | Writing any such batch with commas, each amount by any text that stands for it, and parsing it gives it back; a lone missing amount written as nothing reads as no amounts |
| Params.MixedBatch | src/params.py:274-308 | A batch with an amount and a missing one, the texts that stand for them, and a reader for which they do |
| Params.AddressExactly | src/params.py:6-15 | An address, character by character |
| Params.NewlineSlipsThrough | src/params.py:6-15 | The address test lets through exactly the addresses and these with a newline behind |
| TokenIndex.BuildTokenIndex | frontend/src/lib/stores/tokenlist.ts:135-163 | The loops compute `BuildIndex` |
| TokenIndex.IndexTokens | frontend/src/lib/stores/tokenlist.ts:143-152 | The inner loop adds a list's tokens where their address is new |
| TokenIndex.InjectUsd | frontend/src/lib/stores/tokenlist.ts:155-160 | Every chain, and no other, gets a USD entry unless it has one |
| TokenIndex.IndexIsFirstMatch | frontend/src/lib/stores/tokenlist.ts:135-163 | For every chain and address the index has the first match of the lists, USD in exactly the chains with a token, and nothing else |
| TokenIndex.FirstListWins | frontend/src/lib/stores/tokenlist.ts:140-153 | The first match is the first matching token of the first enabled list that has one |
| TokenIndex.MapIsInListOrder | frontend/src/lib/stores/tokenlist.ts:140-160 | A chain's map goes through its tokens in the order in which the enabled lists have them first, an added USD entry last |
| TokenSearch.SearchTokens | frontend/src/lib/stores/tokenlist.ts:170-212 | The loop, sort and cut compute `Search` |
| TokenSearch.SearchByTiers | frontend/src/lib/stores/tokenlist.ts:165-212 | Nothing without a chain or a query; otherwise tokens of the chain in one of the five tiers, better tiers first, USD and native first in a tier, then by symbol, then in the map's order; at most 20, and no match left out is better than one found |
| TokenSearch.TopTwenty | frontend/src/lib/stores/tokenlist.ts:165-212 | Results match, each address once, sorted by rank and symbol, at most 20; whoever is left out is beaten or equalled by all of 20 |
| TokenStore.Store.constructor | frontend/src/lib/stores/tokenlist.ts:333-424 | Default, built-in, user and local lists in this order, index built from them |
| TokenStore.Store.RebuildAndSync | frontend/src/lib/stores/tokenlist.ts:294-298 | The index agrees with the lists as they are |
| TokenStore.Store.ToggleList | frontend/src/lib/stores/tokenlist.ts:430-439 | Switches the first list with the key and no other object; index agreement kept |
| TokenStore.Store.AddList | frontend/src/lib/stores/tokenlist.ts:441-447 | Inserts before the last list; index agreement kept |
| TokenStore.Store.RemoveList | frontend/src/lib/stores/tokenlist.ts:449-487 | Removes that list, its first place among the user lists, and the pairs that no longer resolve unless the key is 'default'; index agreement kept |
| TokenStore.Store.RepairPairs | frontend/src/lib/stores/tokenlist.ts:463-484 | The loop over the known chains removes exactly the stale pairs |
| TokenStore.Store.AddLocalToken | frontend/src/lib/stores/tokenlist.ts:489-498 | The local list, if there, gets all local tokens, no other object changes; index agreement kept |
| TokenStore.Store.GetTokenFromIndex | frontend/src/lib/stores/tokenlist.ts:506-515 | USD, or the first match of the current lists |
| TokenStore.Store.SaveCustomPair | frontend/src/lib/stores/tokenlist.ts:263-271 | Saves the pair unless it is one token twice |
| TokenStore.Store.ResetCustomPair | frontend/src/lib/stores/tokenlist.ts:273-277 | Removes the chain's pair only |
| TokenStore.PairAfterRemoval | frontend/src/lib/stores/tokenlist.ts:449-487 | A pair that resolved stops resolving if and only if one of its tokens came from the removed list alone; it is then reset unless the list goes by 'default', and left stale if it does, and otherwise kept unchanged and still resolves |
| TokenStore.OtherPairsAfterRemoval | frontend/src/lib/stores/tokenlist.ts:461-484 | A pair that did not resolve is reset unless the list goes by 'default'; pairs of unknown chains stay as they are |
| TokenStore.ResolvesExactly | frontend/src/lib/stores/tokenlist.ts:473-477 | A pair resolves if and only if for each address an enabled list has a token or, for USD, any token of the chain |
| TokenStore.RepairIsComplete | frontend/src/lib/stores/tokenlist.ts:461-484 | No stale pair is left if and only if the removed list does not go by 'default', or before the removal every pair resolved and none had a token from that list alone |
| TokenStore.DefaultKeyIsNotRepaired | frontend/src/lib/stores/tokenlist.ts:462-463 | Removing the local tokens' list, whose key is 'default', leaves a pair stale that resolved before |
| TokenStore.PairAfterSwitchingOff | frontend/src/lib/stores/tokenlist.ts:430-439 | Switching a list off makes a pair stop resolving if and only if one of its tokens came from that list alone, the same pairs as removing it |
| TokenStore.EffectiveIsUsable | frontend/src/lib/stores/tokenlist.ts:279-288 | The pair in use is never one token twice; a saved pair is in use until reset |

## Left out

- RuntimeDrain.WarmupStaysDown: takes the signal to land between two steps. The handler can run between any two bytecodes; `RuntimeDrain.SignalInsideStep` states what it does inside a call of `resume`. Inside `pause` or `cancel`, which set the same fields, it is as if it came right after them; in the rest of `_finished`, as if it came right before the callback or, once `completed` is being set, right after it. Other code does not touch the warmup.
- Handlers.CacheRefinesOracle: compares status and price, because a cached answer can lack the time stamp that a fresh one has; time stamps are the subject of `Handlers.StampsArrived`.
- TokenStore.Store.constructor: takes the default, built-in and user lists as they are once built; the flags read from local storage, the bundled tokens and the fetching of user lists are arguments.
- `localTokens` and the tokens of the local list are one array in the program until the first `addLocalToken`; here they are equal values. It would show only with a second local list of that name in front.
- The asyncio event loop and the semaphore's internals beyond the contract in `Asyncio`; the fairness of the loop. Termination is stated as a bound on steps and as what a state without steps looks like.
- The five-second waits in `close()`, and the replacement of the supervisor when the running loop changes (`src/server.py:814-820`).
- The time between the server's start and the first `resume`: the system starts with the warmup in place, as no request is served before.
- Requests the middleware passes through because they are for other paths (`src/runtime.py:150-156`).
- A price or an amount as a binary float or a decimal of limited precision: both are reals, with infinities and NaN as a separate case.
- The `cached_at` of cache entries and the time to live: an entry can be lost at any moment.
- Trade paths, metrics, log messages, and the wording of errors. The status of transient failures is one case, `Failed`.
- `y`, brownie, dank_mids, web3 and the retry inside `_fetch_price`: they are the oracle and its transient failures.
- Decimal, integer and time parsing in `src/params.py`: functions given as parameters; `parse_price_params` and `parse_ignore_pools`, which use the same pieces.
- Case folding of characters outside ASCII, and numerals with a plus sign, blanks or underscores, which `int` also reads in keys of other origin.
- `localeCompare`: any total preorder of strings. The library's sort: an insertion sort with the same contract.
- Persistence of the token lists and their flags, and failing writes to local storage; saved pairs are a map that is written reliably.
- The `_prewarm_*` loaders, `/check_bucket`, block resolution, routing, signals beyond the call to `cancel`, scripts and user interface.
