# The oneTBB runtime core in Dafny

oneTBB's scheduler is a collection of small concurrent protocols and a few computations that decide how many threads run
where. This project models them and proves what their comments and assertions claim, for every interleaving and every
input. `dafny verify dfyconfig.toml` checks all of it.

Two shapes recur.

* **Protocols** (task pool, pipeline, worker pool, atomic flag, demand ledger, mailbox, proxy, monitor, small object pool)
  are step machines. A `State` holds the shared memory and where every thread is; `Enabled` and `Apply` give one step, which
  is one atomic access or one region under a lock; `Inv` is an inductive invariant; a *run* is any sequence of states that
  starts in an initial one and takes any thread's step at any point. The theorems quantify over all runs and all states of
  a run, for any number of threads. What a whole call achieves, from its first step with its arguments to its last, is
  stated over a *trail*: a run with the steps it takes. Histories (what was pushed, popped, returned, signalled) are fields of the state that
  decide nothing; where a guard mentions one or an index must be in range, a lemma shows that the step is possible all the same.
* **Loops** (relocation of a task pool, the token ring, allotment of workers, propagation of a cancellation, the lists of a
  monitor, processor groups) are methods on arrays and classes, proved against functions on sequences and maps that the
  lemmas then reason about.

Memory is sequentially consistent, integers are mathematical, and what the code calls but does not define here (filters,
conditions of waiters, "no work left" predicates, isolation tags, whether a mailbox is likely to be served) is arbitrary.

## What the modules are

| module | subject |
|---|---|
| `Relocation`, `ArenaSlot` | `prepare_task_pool`: counting, compacting in place, moving to a larger array |
| `TaskPool`, `TaskPoolProof`, `TaskPoolRuns`, `TaskPoolCalls` | owner and thieves on one task pool; what whole calls of theirs achieve |
| `InputBuffer` | the token-indexed ring of a serial filter |
| `Pipeline`, `PipelineInv`, `PipelineProof`, `PipelineRuns` | stage tasks, filters and input tokens |
| `PipelineJourney`, `PipelineDrain` | the way of every item through the filters, and the end of the pipeline |
| `WorkerSlack`, `WorkerSettle` | the private server's slack and wake-up chain, and that it settles on the workers requested |
| `WorkerLifecycle`, `WorkerLaunch` | launch, quit and destruction of its workers |
| `AtomicFlag`, `AtomicFlagCalls`, `ArenaDemand`, `ArenaDemandCalls`, `Market` | from "there is work" to an allotment of workers |
| `Mailbox`, `MailboxCalls`, `TaskProxy` | affinity mail: the queue, and the claim of one proxy from two places |
| `Monitor`, `MonitorRuns`, `MonitorCalls`, `WaitList` | two-phase waiting and notification; the linked list under it |
| `SmallObjectPool`, `SmallObjectPoolRuns`, `SmallObjectReuse` | per-thread free lists, their reuse, and the counter that decides who releases the pool |
| `Cancellation` | the tree of task group contexts |
| `ProcessorGroups` | assigning threads to processor groups |
| `Sums`, `Sequences`, `Arithmetic`, `Wrappers` | sums over sequences, taking elements out, quotients, `Option` |

## Where the code does not do what it says

* `market::update_allotment` ends with an assertion that all workers it set out to hand out were assigned
  (src/tbb/market.cpp:110). With soft limit 0 it can fail: a client with mandatory concurrency that requests no workers
  makes one worker available that no client may take. `UpdateAllotment` states exactly when the assertion holds and
  `Market.MandatoryUnserved` is a case in which it does not. An arena gets there in two ways: its mandatory request is
  ahead of its request for workers (`ArenaDemand.MandatoryAhead`, `Market.MandatoryAheadOfWorkers`), or the workers were
  given back and the mandatory request was not, with nothing in flight (the next item, `Market.WorkersGivenBack`).
* `arena::out_of_work` is to keep `my_pool_state` from being unset while `my_mandatory_concurrency` is set
  (src/tbb/arena.cpp:379-380). It does not: the two flags are cleared by separate looks at the arena, so a thread that
  sees enqueued tasks at the first look and none at the second leaves the mandatory flag up alone.
  `ArenaDemand.MandatoryLeftBehind` is the run, which ends with nothing in flight; `PoolUpKept` says which steps break the
  invariant, and `ShortExactlyWithoutPool` that, with nothing in flight, an arena that may have workers needs one and asks
  for none exactly in this case. The comment also says that `my_pool_state` is cleared first; the code clears
  `my_mandatory_concurrency` first, and so does the model.
* A task proxy is to be freed after the winner's last access. On the owner's path `get_task` reads the proxy's slot after
  it has extracted the task (src/tbb/arena_slot.cpp:56), when the mailbox side may already have deleted it.
  `TaskProxy.GetTaskLate` is the run, and `FreedLastIffSlotReadFirst` says which paths are free of it: the thief reads the
  slot first (src/tbb/arena.h:551).
* `cancel_group_execution` relies on a context never being uncancelled (src/tbb/task_group_context.cpp:230-232). Binding a
  context copies the parent's flag over its own, and `reset` stores 0 into it, so a request is withdrawn exactly when the
  context is bound under a parent that is not cancelled, or reset: `Cancellation.RequestStands`, with a run in
  `LostRequest`.
* Descendants of a cancelled context are to be cancelled. `reset` does not look at the parent
  (src/tbb/task_group_context.cpp:243-251), so a context reset below a cancelled one goes on: `Cancellation.ExposedByReset`.
  `DescendantsCancelled` says that a run has all descendants cancelled throughout exactly if it makes no such reset.

## Model

| member | source | states |
|---|---|---|
| `TaskPoolRuns.ReturnedAtMostOnce` | src/tbb/arena_slot.cpp:30-205 | in every interleaving of the owner's spawn and get_task with any number of thieves, no task is returned twice, and only spawned tasks are returned, to callers whose isolation they suit |
| `TaskPoolRuns.NothingLost` | src/tbb/arena_slot.cpp:64-205 | a spawned task that was not returned or freed is in one hand or in a cell that lies inside the bounds head and tail are restored to; when nobody is inside a call it lies between head and tail |
| `TaskPoolRuns.BoundsRestored` | src/tbb/arena_slot.cpp:130-138 | those bounds are the values the closing stores of get_task and steal_task write |
| `TaskPoolRuns.Arbitration` | src/tbb/arena_slot.cpp:72-100 | when the owner gets the lock after a conflict, tail is T and head is at most T+1 |
| `TaskPoolRuns.CellAccess` | src/tbb/arena_slot.h:174-182 | cells are read inside the array and never poisoned, spawn overwrites only poisoned cells, and owner and thief never look at the same cell |
| `TaskPoolRuns.GetTaskIsExhaustive` | src/tbb/arena_slot.cpp:64-140 | get_task returns nothing only if every task left in the pool has another isolation |
| `TaskPoolRuns.OwnerGoesOn` | src/tbb/arena_slot.cpp:64-140 | an owner inside spawn or get_task can take its own next step, exactly unless it waits for the lock while a thief holds it |
| `TaskPoolRuns.ThiefGoesOn` | src/tbb/arena_slot.cpp:142-205 | a thief inside steal_task can always take its own next step, and every step it takes lowers the number it has left, so it unlocks |
| `TaskPoolCalls.SpawnCall` | src/tbb/arena_slot.h:174-182 | in every run a spawn that is over has added its task to the pool |
| `TaskPoolCalls.GetCall` | src/tbb/arena_slot.cpp:30-140 | from its first step to its last: get_task returns a task that fits the isolation it was called with, or none, and then no task in the pool fits |
| `TaskPoolCalls.OwnerTakesLast` | src/tbb/arena_slot.cpp:103-121 | the task get_task takes is the last one between head and tail that fits |
| `TaskPoolCalls.StealCall` | src/tbb/arena_slot.cpp:142-205 | steal_task returns the first task from the head that fits and is not a proxy answered to be likely taken from its mailbox; it returns none only if at some moment of the call every task from head to tail had another isolation or was such a proxy |
| `TaskPoolCalls.OwnerCallEnds` | src/tbb/arena_slot.cpp:64-140 | every step of spawn and get_task lowers a bound on what is left of the call, and no step of a thief raises it |
| `TaskPoolCalls.LocksOnConflict` | src/tbb/arena_slot.cpp:72-79 | get_task takes the lock only after it saw head beyond its T |
| `TaskPoolRuns.HistoryGrows` | src/tbb/arena_slot.cpp:30-205 | a task once returned stays returned |
| `TaskPoolRuns.StepKeeps` | src/tbb/arena_slot.cpp:64-205 | every atomic access of either side keeps the invariant on indices, cells and tasks |
| `Relocation.RelocatedLayout` | src/tbb/arena_slot.h:254-287 | the relocated pool starts with exactly the non-null tasks of the old bounds in order, has room for the new ones, and is poisoned behind them |
| `Relocation.NonNullKeeps` | src/tbb/arena_slot.h:274-278 | filtering drops null pointers only and keeps distinct tasks distinct |
| `Relocation.AllocatedEnough` | src/tbb/arena_slot.h:114-117 | rounding the size up to whole cache lines never makes it smaller |
| `Relocation.AllocatedTight` | src/tbb/arena_slot.h:114-117 | the size is the smallest multiple of 16 pointers that is large enough |
| `Relocation.FirstPoolSize` | src/tbb/arena_slot.h:246-253 | the first pool holds at least 64 tasks and no more than needed beyond that |
| `Relocation.RelocatedSize` | src/tbb/arena_slot.h:261-271 | compaction in place exactly if at least 16 cells stay free, otherwise the pool at least doubles, and is not larger than needed |
| `ArenaSlot.Slot.PrepareTaskPool` | src/tbb/arena_slot.h:240-288 | all three outcomes, each with the new array, head and tail, and room for the tasks asked for |
| `ArenaSlot.Slot.Relocate` | src/tbb/arena_slot.h:254-287 | the locked part computes the relocation, in place or in a new array |
| `ArenaSlot.CopyWithin` | src/tbb/arena_slot.h:274-278 | copying in place moves exactly the non-null pointers and overwrites none before it is read |
| `ArenaSlot.CopyAcross` | src/tbb/arena_slot.h:274-278 | the same loop into a new array |
| `ArenaSlot.CountTasks` | src/tbb/arena_slot.h:259-260 | counts the non-null pointers between the bounds |
| `InputBuffer.MaskIsRemainder` | src/tbb/parallel_pipeline.cpp:206-206 | masking with a power of two less one is the remainder |
| `InputBuffer.NoSharedCell` | src/tbb/parallel_pipeline.cpp:187-210 | two tokens of one window never share a cell |
| `InputBuffer.Ring.Grow` | src/tbb/parallel_pipeline.cpp:250-266 | ends with a power of two that is large enough, and keeps the map of deferred tokens |
| `InputBuffer.Ring.TryPutToken` | src/tbb/parallel_pipeline.cpp:187-210 | assigns tokens and either lets the item through or inserts it into the map |
| `InputBuffer.Ring.Defer` | src/tbb/parallel_pipeline.cpp:199-207 | storing a token beyond low_token, growing if need be, is map insertion |
| `InputBuffer.Ring.Advance` | src/tbb/parallel_pipeline.cpp:216-225 | advancing low_token removes the next token from the map and returns its item if it was there |
| `InputBuffer.Removed` | src/tbb/parallel_pipeline.cpp:216-225 | clearing one cell of the moved window is removal of one key |
| `PipelineRuns.SerialExclusion` | src/tbb/parallel_pipeline.cpp:349-411 | no two tasks are inside the same serial filter |
| `PipelineRuns.TokensInSequence` | src/tbb/parallel_pipeline.cpp:187-228 | a serial filter runs tokens 0, 1, 2, ... each once, and no item twice |
| `PipelineRuns.OneOrder` | src/tbb/parallel_pipeline.cpp:349-411 | of two ordered filters, what one has run is a prefix of what the other has run |
| `PipelineRuns.LowTokenIsRunning` | src/tbb/parallel_pipeline.cpp:212-228 | if the item for low_token has arrived, a task runs it or is about to be spawned for it |
| `PipelineRuns.TokenLimit` | src/tbb/parallel_pipeline.cpp:281-287 | input_tokens never underflows, items in flight never exceed max_token, at most one task is before its decrement, and until the end of input exactly when tokens are left |
| `PipelineRuns.NothingDeferred` | src/tbb/parallel_pipeline.cpp:212-228 | when all tasks are done no buffer holds an item |
| `PipelineRuns.FinishedRun` | src/tbb/parallel_pipeline.cpp:349-411 | when all tasks are done every item read has been through every serial filter, in one order through the ordered ones |
| `PipelineRuns.NeverStuck` | src/tbb/parallel_pipeline.cpp:349-411 | a task that is not done always has a next step |
| `PipelineJourney.Journey` | src/tbb/parallel_pipeline.cpp:349-411 | at any time the filters run on an item, parallel ones included, are the first ones of the chain, each once and in order, as many as its place says |
| `PipelineJourney.OutMeansThrough` | src/tbb/parallel_pipeline.cpp:349-411 | an item at the end of the pipe has been through all of them |
| `PipelineJourney.EveryFilterOnce` | src/tbb/parallel_pipeline.cpp:349-411 | when all tasks are done there is, for every filter and every item, exactly one step that ran it |
| `PipelineDrain.StepLowers` | src/tbb/parallel_pipeline.cpp:349-411 | every step but one of the input filter lowers a bound on what is left to do |
| `PipelineDrain.BoundedStretch` | src/tbb/parallel_pipeline.cpp:349-411 | a stretch of a run without input is at most as long as that bound |
| `PipelineDrain.DrainedInTheEnd` | src/tbb/parallel_pipeline.cpp:349-411 | every run goes on, without further input and within that bound, to one in which all tasks are done |
| `PipelineDrain.FinishesAtEnd` | src/tbb/parallel_pipeline.cpp:400-408 | all tasks are done only after the end of the input |
| `PipelineDrain.NoLateReads` | src/tbb/parallel_pipeline.cpp:370-383 | once the end of the input is seen, a parallel first filter gives no more items than tasks are on their way to it |
| `PipelineRuns.StructKept` | src/tbb/parallel_pipeline.cpp:349-411 | every step keeps the invariant on tasks, items, buffers and order |
| `PipelineRuns.CountsKept` | src/tbb/parallel_pipeline.cpp:398-410 | every step keeps the token balance |
| `WorkerSlack.SlackLedger` | src/tbb/private_server.cpp:355-425 | my_slack, workers off the asleep list and claimed units add up to the net requested job count |
| `WorkerSlack.ChainReaction` | src/tbb/private_server.cpp:156-160 | slack with a sleeper means some thread is inside wake_some or a popped worker has yet to propagate |
| `WorkerSlack.AsleepOnce` | src/tbb/private_server.cpp:355-403 | a worker is on the asleep list exactly when it sleeps, and only once |
| `WorkerSlack.DemandMet` | src/tbb/private_server.cpp:260-282 | once everything has settled, the workers running are the net request less my_slack, and if my_slack is not negative as many as were requested, or all of them if there are fewer |
| `WorkerSlack.NeverStuck` | src/tbb/private_server.cpp:373-414 | whoever is inside wake_some can go on, or waits for a list lock whose holder can |
| `WorkerSettle.SettlesInTheEnd` | src/tbb/private_server.cpp:355-414 | every run goes on, without new requests and in a bounded number of steps, to one at rest: nobody is inside a call, and with negative slack no worker runs |
| `WorkerSettle.RunningAtRest` | src/tbb/private_server.cpp:260-282 | at rest exactly as many workers run as are requested, all if there are fewer, none if the request is negative |
| `WorkerSettle.RestsOrSteps` | src/tbb/private_server.cpp:355-414 | unless at rest some step is possible; in particular a worker can go to sleep while slack is negative, and whoever was popped is woken |
| `WorkerSettle.StepLowers` | src/tbb/private_server.cpp:355-414 | every step other than a new request lowers the bound |
| `WorkerSettle.NetRequested` | src/tbb/private_server.cpp:416-425 | the net request is the sum of the deltas the calls were given, but for those about to be added |
| `WorkerSettle.WakeesFit` | src/tbb/private_server.cpp:373-414 | the array of two wakees is never overrun: a call claims at most two units and holds at most two workers |
| `WorkerSettle.ClaimsUpToTwo` | src/tbb/private_server.cpp:383-393 | wake_some stops claiming only with two units or when no slack is left |
| `WorkerSlack.LedgerKept` | src/tbb/private_server.cpp:355-425 | every step keeps the ledger |
| `WorkerSlack.ChainKept` | src/tbb/private_server.cpp:355-414 | every step keeps the chain of wake-ups alive |
| `WorkerLifecycle.AtMostOnce` | src/tbb/private_server.cpp:236-322 | a worker drops at most one reference, its handle is released at most once, only when it is set and the worker is to quit |
| `WorkerLaunch.LaunchCall` | src/tbb/private_server.cpp:284-322 | from its first step to its last: a worker that wake_or_launch found in st_init is launched or being launched, or told to quit; one found starting or normal was notified; and if the caller won the launch the thread has been created |
| `WorkerLifecycle.DestroyedOnce` | src/tbb/private_server.cpp:170-190 | the server is destroyed at most once, after every worker dropped its reference, every launched thread left and had its handle released exactly once; afterwards no step is possible |
| `WorkerLifecycle.NoDeadlock` | src/tbb/private_server.cpp:229-322 | from the start of the close to the destruction some step other than the beginning of a new call is possible, even if releasing a handle joins the thread |
| `WorkerLifecycle.StepLowers` | src/tbb/private_server.cpp:170-322 | every step other than the beginning of a new call lowers a measure of what is left to do |
| `WorkerLifecycle.BoundedStretch` | src/tbb/private_server.cpp:170-322 | a stretch of a run without new calls is at most as long as that measure at its start |
| `WorkerLifecycle.DestroyedInTheEnd` | src/tbb/private_server.cpp:170-322 | every run in which the close has begun goes on, without new calls and in at most that many steps, to one in which the server is destroyed |
| `WorkerLifecycle.ShapeKept` | src/tbb/private_server.cpp:236-322 | every step keeps states, launches and handles consistent |
| `WorkerLifecycle.CountedKept` | src/tbb/private_server.cpp:170-190 | every step keeps the reference count equal to the references still held |
| `AtomicFlag.NoLostWork` | src/tbb/arena.h:144-176 | while the flag is UNSET, whoever produced work that is left has not finished its test_and_set |
| `AtomicFlag.SetsAndClears` | src/tbb/arena.h:144-176 | sets and clears that returned true alternate |
| `AtomicFlag.OnlyWinnersFlip` | src/tbb/arena.h:144-176 | a call returns true exactly when it flips the flag |
| `AtomicFlag.QuiescentFlag` | src/tbb/arena.h:144-176 | with nobody inside a call and work left, the flag is SET |
| `AtomicFlagCalls.SetReturns` | src/tbb/arena.h:144-162 | when test_and_set returns the flag is up; it returns true exactly if it found it UNSET and raised it |
| `AtomicFlagCalls.ClearCall` | src/tbb/arena.h:164-176 | try_clear_if clears the flag and returns true exactly if it found it SET at both accesses, its predicate held and nobody interrupted it |
| `AtomicFlagCalls.CallsAreShort` | src/tbb/arena.h:144-176 | a call takes at most four steps |
| `ArenaDemand.LedgerBalances` | src/tbb/arena.h:490-525 | delivered plus in-flight deltas are what the two flags stand for, with and without workers |
| `ArenaDemand.QuiescentRequest` | src/tbb/arena.cpp:426-443 | with nothing in flight the request is exactly what the flags say and clamping changes nothing |
| `ArenaDemandCalls.NearestAllowed` | src/tbb/arena.cpp:426-443 | a request comes to the number nearest to what was asked for that the arena may have |
| `ArenaDemandCalls.AdvertiseCall` | src/tbb/arena.h:490-525 | advertise_new_work has raised my_pool_state, and my_mandatory_concurrency for enqueued work, at some moment of the call; they are up at its end unless somebody cleared one in the meantime |
| `ArenaDemandCalls.OutOfWorkCall` | src/tbb/arena.cpp:378-394 | out_of_work tries to clear both flags before it returns |
| `ArenaDemand.MandatoryAhead` | src/tbb/arena.cpp:378-394 | a run in which mandatory concurrency is requested before any worker |
| `ArenaDemand.ShortExactlyWithoutPool` | src/tbb/arena.cpp:378-394 | with nothing in flight an arena needs a worker and asks for none exactly if its mandatory flag is up, its pool flag is not, and it may have workers |
| `ArenaDemand.PoolUpKept` | src/tbb/arena.cpp:378-394 | a step ends "mandatory only with pool" exactly if it clears the pool flag under the mandatory one or raises the mandatory flag while the other is down |
| `ArenaDemand.MandatoryLeftBehind` | src/tbb/arena.cpp:378-394 | a run that ends with nothing in flight and the mandatory flag up alone: one worker needed, none asked for |
| `Market.MarketState.UpdateAllotment` | src/tbb/market.cpp:71-111 | with a positive soft limit the smaller of demand and limit is handed out, levels in strict priority, on each level every client within one of its exact share and within demand, rounded down from the last added client; with soft limit 0 one worker exactly if mandatory concurrency is requested and someone may have it, to the last added such client of the first level that has one; who is marked top priority; and exactly when the closing assertion holds |
| `Market.AllotLevel` | src/tbb/market.cpp:84-108 | the loop over one level with its carry, which ends at 0: fair shares rounded down from the last added client, or the one worker to the last added eligible one |
| `Market.StrictPriority` | src/tbb/market.cpp:81-83 | a level gets workers only if every higher one is satisfied |
| `Market.PortionsTotal` | src/tbb/market.cpp:71-83 | the portions add up to the smaller of demand and limit |
| `Market.MarketState.AdjustDemand` | src/tbb/market.cpp:121-139 | total demand, level demands and requests stay in step, the delta returned is the change, and the workers are distributed as by update_allotment |
| `Market.MarketState.UpdateRequest` | src/tbb/pm_client.h:47-52 | a client takes over its arena's request and reports the difference |
| `Market.MarketState.SetActiveNumWorkers` | src/tbb/market.cpp:113-119 | under a changed limit the workers are distributed as by update_allotment, an unchanged one changes nothing |
| `Market.MarketState.RegisterClient` | src/tbb/market.cpp:52-55 | a new client leaves the demands as they are |
| `Market.MarketState.UnregisterClient` | src/tbb/market.cpp:57-69 | so does removing one that requests nothing |
| `Market.AllotLevels` | src/tbb/market.cpp:79-109 | the loop over the levels gives each its portion, fairly within it, and with soft limit 0 at most one worker |
| `Market.MandatoryAheadOfWorkers` | src/tbb/market.cpp:121-139 | a market in which an arena has mandatory concurrency and no demand, because the former was requested first |
| `Market.WorkersGivenBack` | src/tbb/market.cpp:121-139 | the same market, because only the workers were given back |
| `Market.MandatoryUnserved` | src/tbb/market.cpp:110-110 | from such a market, one worker is to be given out and none is assigned |
| `Mailbox.PushedMinusPopped` | src/tbb/mailbox.h:115-168 | the box is pushed less popped in exchange order; nothing is pushed or popped twice |
| `Mailbox.LinksSpellBox` | src/tbb/mailbox.h:159-168 | with no link outstanding and no pop under way, the pointers from my_first to my_last spell out the box |
| `Mailbox.PopsFirstMatch` | src/tbb/mailbox.h:115-153 | a pop returns the first proxy its isolation admits and takes out just that one |
| `Mailbox.GivesUpAtGap` | src/tbb/mailbox.h:115-131 | a pop gives up only at the end or at a link still to be stored, past proxies it may not take |
| `Mailbox.SpinIsAwaited` | src/tbb/mailbox.h:139-149 | the owner spins only for a link some pusher is committed to store |
| `Mailbox.NoStoreAfterPop` | src/tbb/mailbox.h:159-168 | no pusher stores into a proxy that has left the box |
| `Mailbox.NeverStuck` | src/tbb/mailbox.h:115-168 | neither a pop nor a push under way is ever blocked |
| `MailboxCalls.PopCall` | src/tbb/mailbox.h:115-153 | from its first step to its last: pop returns the first proxy of the box that fits the isolation it was called with, or none, and then at its last look nothing fitted up to the end or up to a proxy whose link is still to be stored |
| `MailboxCalls.PopGoesOn` | src/tbb/mailbox.h:115-153 | every step of a pop lowers a bound, except for one that waits for a link some pusher is about to store |
| `MailboxCalls.PushGoesOn` | src/tbb/mailbox.h:159-168 | a push takes three steps, each always possible, and then its proxy is in the box or has been popped |
| `Mailbox.LinksKept` | src/tbb/mailbox.h:115-168 | every access keeps the links in step with the box |
| `TaskProxy.ExactlyOne` | src/tbb/mailbox.h:64-83 | when both copies are extracted exactly one side has the task and exactly the other has freed the proxy, once |
| `TaskProxy.BothEnd` | src/tbb/mailbox.h:64-83 | both sides are done after at most eight steps |
| `TaskProxy.AtMostOneWinner` | src/tbb/mailbox.h:64-83 | at every point at most one side has the task and only the other frees |
| `TaskProxy.TagsAsAsserted` | src/tbb/mailbox.h:64-83 | both assertions of extract_task on the tag |
| `TaskProxy.LateAccess` | src/tbb/arena_slot.cpp:54-62 | a deleted proxy is touched exactly when get_task reads the slot after the mailbox side freed it |
| `TaskProxy.FreedLastIffSlotReadFirst` | src/tbb/arena.h:550-556 | the proxy is freed after the winner's last access exactly on the path that reads the slot first |
| `TaskProxy.GetTaskLate` | src/tbb/arena_slot.cpp:54-62 | the run that reads it late |
| `MonitorRuns.NoLostWakeup` | src/tbb/concurrent_monitor.h:322-390 | a waiter that saw its condition false before a broadcasting notifier changed the state, and whose context matches, is off the waitset with its signal on the way once that notifier is past its lock |
| `MonitorRuns.WokenInTheEnd` | src/tbb/concurrent_monitor.h:322-390 | when the notifiers are done its semaphore is up |
| `MonitorRuns.SignalAccounting` | src/tbb/concurrent_monitor.h:208-260 | signals less waits is 0 or 1, and outside a wait my_skipped_wakeup says exactly whether a signal is owed or unconsumed |
| `MonitorRuns.WaitsForSignal` | src/tbb/concurrent_monitor.h:152-184 | a node waits on its semaphore only while listed or with a signal on the way, also when pumping or being destroyed |
| `MonitorRuns.ListsAreApart` | src/tbb/concurrent_monitor.h:322-356 | a node on a notifier's list is on no other list and not destroyed |
| `MonitorRuns.SleepsOnlyListed` | src/tbb/concurrent_monitor.h:233-243 | the epoch test lets a thread sleep only while it is still listed |
| `MonitorCalls.CommitDecides` | src/tbb/concurrent_monitor.h:231-243 | in every run commit_wait goes to sleep if no notifier has locked since the waiter joined the waitset, and cancels the wait if one has |
| `MonitorCalls.WaitReturns` | src/tbb/concurrent_monitor.h:263-277 | wait returns only after it consumed a signal or saw its condition hold |
| `MonitorCalls.LeavesOnTrue` | src/tbb/concurrent_monitor.h:263-277 | once it saw that it only leaves |
| `MonitorCalls.RoundGoesOn` | src/tbb/concurrent_monitor.h:208-260 | every step of a waiter brings it closer to the end of its round or begins the next |
| `MonitorRuns.OneTaken` | src/tbb/concurrent_monitor.h:285-421 | notify_one takes the first waiter, with a predicate the last that matches, and none exactly if none matches |
| `MonitorRuns.OneWoken` | src/tbb/concurrent_monitor.h:285-421 | in every run, when notify_one locks, exactly one waiter that matches leaves the waitset with its signal on the way if there is one, and otherwise the waitset stays as it is |
| `MonitorCalls.AllWoken` | src/tbb/concurrent_monitor.h:322-390 | a broadcast takes exactly the waiters that match off the waitset, each with its signal on the way |
| `MonitorCalls.SignalOrder` | src/tbb/concurrent_monitor.h:322-390 | notify_all signals the waiters in the order they joined, notify with a predicate the last one first |
| `MonitorCalls.NotifyCall` | src/tbb/concurrent_monitor.h:285-421 | a notification of any kind that is over has locked the monitor, or has seen that nobody waits |
| `MonitorRuns.NotifierNeverStuck` | src/tbb/concurrent_monitor.h:322-390 | a notifier can always go on |
| `Monitor.StepKeeps` | src/tbb/concurrent_monitor.h:208-452 | every step keeps the accounting |
| `WaitList.Add` | src/tbb/concurrent_monitor.h:58-64 | appends one node to the doubly linked list |
| `WaitList.Remove` | src/tbb/concurrent_monitor.h:67-72 | takes one node out, leaving all other lists as they are |
| `WaitList.FlushTo` | src/tbb/concurrent_monitor.h:75-85 | moves a whole list to another sentinel |
| `WaitList.TakeMatching` | src/tbb/concurrent_monitor.h:368-380 | the loop of notify moves exactly the matching waiters to the other list, last one first, and keeps the order of the rest |
| `WaitList.TakeLast` | src/tbb/concurrent_monitor.h:403-416 | the loop of notify_one with a predicate takes the last matching waiter |
| `SmallObjectPoolRuns.Conservation` | src/tbb/small_object_pool.cpp:46-73 | until the pool dies, objects created are those on the two lists and those outstanding, and the private counter counts them |
| `SmallObjectPoolRuns.OnOneList` | src/tbb/small_object_pool.cpp:87-119 | an object is on at most one list, once, exactly if it is free, and the next pointers spell out the lists |
| `SmallObjectPoolRuns.ReleasedOnce` | src/tbb/small_object_pool.cpp:135-152 | the pool is released at most once, exactly when destroy is done and every object is freed, and nothing happens to it afterwards |
| `SmallObjectPoolRuns.SubtractsRest` | src/tbb/small_object_pool.cpp:135-147 | what destroy subtracts is the number of objects it did not free itself |
| `SmallObjectPoolRuns.OwnerNeverStuck` | src/tbb/small_object_pool.cpp:52-61 | the owner only follows pointers to listed objects; the public list it goes to take is there |
| `SmallObjectReuse.Allocates` | src/tbb/small_object_pool.cpp:46-73 | allocate gives out the head of the private list, else that of the public list, whose rest becomes private, and a new object only if both are empty |
| `SmallObjectReuse.Peak` | src/tbb/small_object_pool.cpp:46-73 | no more objects are created than were allocated at once at some time |
| `SmallObjectReuse.FreedFirst` | src/tbb/small_object_pool.cpp:87-119 | an object being freed is not given out before it was on a free list |
| `SmallObjectReuse.DestroyGoesOn` | src/tbb/small_object_pool.cpp:121-152 | destroy can always go on, and every step brings it closer to its end |
| `SmallObjectReuse.DestroyCall` | src/tbb/small_object_pool.cpp:134-152 | once destroy has begun the pool is not used again, and at its end no object is on a free list |
| `SmallObjectPool.ListsKept` | src/tbb/small_object_pool.cpp:46-152 | every step keeps the lists |
| `SmallObjectPool.CountedKept` | src/tbb/small_object_pool.cpp:87-152 | every step keeps the counters |
| `Cancellation.DescendantsCancelled` | src/tbb/task_group_context.cpp:113-251 | in a run of binding, cancelling and resetting, every descendant of a cancelled context is cancelled throughout, exactly if no context is reset below a cancelled one |
| `Cancellation.ConsistentKept` | src/tbb/task_group_context.cpp:113-251 | a step keeps every child of a cancelled context cancelled exactly if it is not such a reset |
| `Cancellation.ExposedOnlyByReset` | src/tbb/task_group_context.cpp:243-251 | a step leaves a context uncancelled below a cancelled parent exactly if it resets that context there |
| `Cancellation.ExposedByReset` | src/tbb/task_group_context.cpp:243-251 | a run that does |
| `Cancellation.EarlyExitSound` | src/tbb/cancellation_disseminator.h:39-41 | stopping at a context without children skips nobody |
| `Cancellation.CancelReaches` | src/tbb/task_group_context.cpp:225-237 | a first cancellation sets the flags of the context and its descendants and of nobody else; a repeated one changes nothing |
| `Cancellation.RequestStands` | src/tbb/task_group_context.cpp:113-251 | a request stands throughout a stretch of a run exactly if no step of it binds the context under a parent that is not cancelled, or resets it |
| `Cancellation.LostRequest` | src/tbb/task_group_context.cpp:160-161 | a run that loses a request by binding |
| `Cancellation.ContextTree.PropagateTo` | src/tbb/task_group_context.cpp:200-224 | paints exactly the contexts from the given one up to below the source, or none |
| `Cancellation.ContextTree.Propagate` | src/tbb/cancellation_disseminator.h:55-58 | one pass over the lists of all threads cancels all strict descendants of the source and nothing else |
| `Cancellation.ContextTree.CancelContext` | src/tbb/task_group_context.cpp:226-237 | cancelling reaches the context and its descendants; the result says whether it was the first request |
| `Cancellation.ContextTree.BindContext` | src/tbb/task_group_context.cpp:113-163 | binding registers the context, marks the parent and copies its flag |
| `Cancellation.ContextTree.IsolateContext` | src/tbb/task_group_context.cpp:177-186 | an isolated context gets no parent |
| `Cancellation.ContextTree.ResetContext` | src/tbb/task_group_context.cpp:243-251 | resetting takes the request back and exposes the context exactly if its parent is cancelled |
| `ProcessorGroups.ComputeTables` | src/tbb/misc_ex.cpp:336-356 | running totals, smallest group, and running totals of the ratios less one |
| `ProcessorGroups.FindProcessorGroupIndex` | src/tbb/misc_ex.cpp:372-395 | terminates for every index and returns the group the index belongs to |
| `ProcessorGroups.OneGroup` | src/tbb/misc_ex.cpp:372-395 | no index belongs to two groups |
| `ProcessorGroups.FillsEachGroup` | src/tbb/misc_ex.cpp:374-381 | of the indices below the number of processors each group gets as many as it has, whatever the hole |
| `ProcessorGroups.DealsInProportion` | src/tbb/misc_ex.cpp:383-391 | of each further cycle a group gets the ratio of its size to the smallest |

## Left out

- Weak memory orders and fences: every access is sequentially consistent, so missed wake-ups that a weaker order allows for spawned work are not in the model.
- Overflow of C integers.
- `arena_slot::has_tasks` and `arena::has_tasks`: the "no work left" predicate of a clearing thread may overlook work that comes or goes while it runs, but not work that is there from when it begins to when it ends; how it looks is not modelled.
- Thieves that do not hold the pool lock have no state: their failed attempts change nothing. Regions the owner runs under the lock are one step.
- The canary pattern of debug builds is always written; the proofs show that it is never read, so release builds behave the same.
- Cancellation, exceptions and thread-local end-of-input marks of the pipeline.
- Sleeping and thread-monitor signals in `WorkerLifecycle`: a worker told to quit may leave its loop at once. Callers of `adjust_job_count_estimate` must have returned before the connection is closed, and `WorkerSlack` is about the time before that.
- Nested-arena adjustments of demand by one, and market clients as objects: `Market` keeps them as values in a sequence for each priority level. A client is removed only when its arena requests nothing, as src/tbb/arena.cpp:312 asserts.
- `mail_outbox::drain`, and the idle flag of a mailbox.
- Exceptions thrown to aborted waiters: `abort_all` is a notification of all waiters. The node count of a list is the length of the waitset.
- Objects larger than a small object, which never enter the pool's lists.
- The epoch fast path of `bind_to_impl`: binding and cancelling are atomic. Destruction of contexts, and the exception that `reset` discards, are not modelled.
- Affinity masks, and the number of processors itself, which are parameters of `ProcessorGroups`.
- queuing_rw_mutex.cpp, rtm_mutex.cpp, rtm_rw_mutex.cpp, task_stream.h, global_control.cpp, the coroutine, observer, dynamic-link, cgroup, NUMA and profiling code, and the Python pool.
