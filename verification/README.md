# Verified model of the Rong host layer

Rong hosts JavaScript engines. The engines themselves sit behind foreign
interfaces; the host layer around them is made of protocols and stateful
algorithms, and those are modelled here and proved correct:

- the worker pools: the life of a task under a deadline race, the worker loop
  with its in-flight counter, interruption requests and keyed states, the
  dispatcher of the shared pool and the routing of the pinned pool
  (`Interrupts`, `Execution`, `TaskLife`, `WorkerLoop`, `WorkerProofs`,
  `WorkerHistory`, `Dispatcher`, `DispatcherScan`, `DispatcherGap`, `Pools`,
  `Schedules`);
- the invoke queue with its lazy coalescing (`InvokeQueue`, `InvokeOrder`);
- task lists, task scopes, services and the lifecycle of a context
  (`TaskLists`, `Scopes`, `ScopeHistory`, `Services`);
- server-sent events: the incremental parser, the round trip with a writer of
  the format, the reading of the WHATWG HTML Standard, on which streams the two
  agree and where they depart, and the reconnecting worker (`SseParser`,
  `SseRoundTrip`, `SseStandard`, `SseDifferences`, `SseReconnect`, `SseRuns`);
- resumable downloads, the Content-Range header and the joining of body frames
  (`Downloads`, `DownloadOutcomes`, `ContentRanges`, `Coalescing`);
- the registry of built-in modules (`Modules`).

`Basics` and `Bytes` hold what several of them share. `dafny verify
dfyconfig.toml` checks everything.

## How the parts are modelled

Concurrent parts are transition systems. One step is one mutex-protected method,
one atomic operation or one branch of a `select!`; a schedule is any sequence of
steps that are possible in turn, and the theorems quantify over all schedules.
Deadlines, cancelled spawners, dropped handles and user interrupts are steps that
may come at any moment. The methods under the mutex are also classes whose
methods are proved against the functions the transition systems use. What the
systems do is said a second time without these functions, of the schedule or of
the input alone: which task was aborted, which item runs next, which scope is
current, how many rounds are made, which answer completes a download.

Sequential parts that update state in place are classes and loops, each proved
against a specification function or stating its result outright. Everything
outside the code is an input chosen freely: what a channel receives, how a
server answers and where a response is cut, which file operation fails and how
many bytes a failing write leaves, which initialiser fails, what host code does
while a future is polled.

Bytes are numbers below 256, and a Rust string is its bytes. Numbers have their
width where it matters: 64-bit delays saturate, retry counts saturate at 32
bits, decimal parsing refuses what does not fit in 64 bits.

Facts about the code that differ from its documentation or from what one would
expect of it; the model follows the code, and each has a lemma at its inputs:

- The pinned pool promises each task the state returned by the previous
  successful task. The code keeps a state whenever the future completed, also
  with an error value (`ErrorHandsStateOn`), and forgets it after a timeout, an
  abort or a panic.
- The comment on the task list says that it stays within twice its live
  handles. A push is sure to leave it so exactly if it sweeps or if the list
  held at most one handle (`PushWithinTwiceLive`, `TwiceLiveFails`); the list
  always stays within twice the handles the last sweep kept, or within 64.
- A body that fails reports the error before the bytes still buffered, so bytes
  follow the error exactly when some are buffered (`ErrorBeforeBytes`); what
  comes before the error is a prefix of the body.
- A scope cancelled while the result of one of its promises is being converted
  does not stop that promise (`CancelWhileConverting`); this is the only moment
  at which a cancelled scope can still settle one.
- A success other than 200 and 206 says nothing about the resource, and a fresh
  download takes its body for it all the same (`NoContentEmptiesDestination`).
- The task of the invoke queue returns as soon as it finds the last sender gone,
  and what is still queued then never runs (`ClosedRunsNothing`); everything runs
  if the channel stays open and empty long enough (`AllRunInTheEnd`).
- A pool of two or more workers can leave a spawner parked beside an idle
  worker until a busy one finishes (`TwoWorkersMayOverlook`).
- The event-stream parser differs from sections 9.2.5 and 9.2.6 of the WHATWG
  HTML Standard: a lone CR does not end a line, no byte order mark is removed, an
  unfinished event and its id are taken in at the end of the stream, an empty
  `event` field gives an event of the empty type, a retry time may carry a plus
  sign and must fit in 64 bits, and the last id outlives the connection
  (`SseDifferences`). On every stream with none of these the events have
  the Standard's types, data and ids (`AgreesWithStandard`).

## Model

| member | source | states |
|---|---|---|
| `Interrupts.InterruptHandle.Interrupt` | core/src/interrupt.rs:78-86 | a persistent request raises the flag and leaves the scoped count |
| `Interrupts.InterruptHandle.Clear` | core/src/interrupt.rs:89-97 | clearing drops only the persistent request; the flag stays up while a scoped one lives |
| `Interrupts.InterruptHandle.InterruptScoped` | core/src/interrupt.rs:100-114 | one more scoped request and a live guard of this handle, or no change at overflow |
| `Interrupts.InterruptGuard.Release` | core/src/interrupt.rs:167-180 | a guard drops its request once, however often it is released |
| `Execution.TaskExecutionControl.Start` | core/src/shared.rs:82-90 | the worker claims a task exactly when it is still queued |
| `Execution.TaskExecutionControl.Install` | core/src/shared.rs:92-104 | the abort handle is published exactly when the task is starting, and fired at once otherwise |
| `Execution.TaskExecutionControl.Expire` | core/src/shared.rs:106-127 | a deadline wins in every phase but finished, takes one scoped request exactly when the task was claimed, and fires a published abort handle exactly then |
| `Execution.TaskExecutionControl.Close` | core/src/shared.rs:129-138 | finishing returns the stored timeout, forgets the abort handle and drops the scoped request the timeout took |
| `TaskLife.TaskKept` | core/src/shared.rs:82-138 | every event of caller or worker keeps the invariant tying a task's stage to its phase, guard, timeout, results and start count |
| `TaskLife.VerdictAgreement` | core/src/shared.rs:892-919 | in every race the deadline wins if and only if the single `finish` returns it and the single result reports it, any other result reports how the future ended, a task timed out in the queue never calls its factory, and no `expect` or `debug_assert` can fail |
| `TaskLife.AbortAgreement` | core/src/shared.rs:92-127 | in every race the future is aborted if and only if the worker was told to terminate or the deadline won after the factory was called |
| `WorkerProofs.InvKept` | core/src/shared.rs:869-983 | every action of spawners, handle holders and worker thread keeps the whole worker invariant |
| `WorkerProofs.InflightConservation` | core/src/shared.rs:869-983 | in every schedule the counter is the reserving spawners plus the held, queued and stranded tasks, tasks are settled in the order they were accepted, and each settled task was finished once and sent one result |
| `WorkerProofs.InterruptIsolation` | core/src/shared.rs:880-965 | in every schedule the scoped count is the user's guards plus one exactly while the claimed task has lost to its deadline and is not released, and when a task has just been taken only the user's requests can interrupt it |
| `WorkerProofs.KeyedActor` | core/src/pinned.rs:702-798 | in every schedule the tasks of a key run one at a time in queue order, each given what the run before it left if that one completed and nothing otherwise; tasks timed out in the queue and other keys leave the chain alone |
| `WorkerProofs.StatesKept` | core/src/pinned.rs:711-798 | the map of states holds, for every key not running, exactly what its last run left |
| `WorkerProofs.StartsInQueueOrder` | core/src/pinned.rs:702-720 | the started tasks are the accepted ones, in that order, without those never started |
| `WorkerHistory.FlagFromHistory` | core/src/interrupt.rs:78-114 | in every schedule the engine is interrupted exactly while a user has interrupted without clearing, holds a scoped request, or the running task has lost to its deadline |
| `WorkerHistory.ControlFromHistory` | core/src/shared.rs:869-965 | in every schedule the loop ends only after it was told to, and is told to only if somebody asked for termination or every sender is gone; the channel keeps to its capacity |
| `WorkerHistory.StopsForGood` | core/src/shared.rs:873-879 | once the loop has seen the request to terminate, or the end of the channel, no factory is called again, and the task that ran when it saw the request has been aborted |
| `Schedules.ErrorHandsStateOn` | core/src/pinned.rs:755-770 | for every error and state a schedule in which a task that returned the error hands the state on to the next task of its key |
| `Dispatcher.DispatchKept` | core/src/shared.rs:574-589 | every step of a non-atomic scan, a registration, a notification, a cancellation or a worker keeps the dispatcher invariant |
| `Dispatcher.NoStrandedDispatcher` | core/src/shared.rs:574-589 | whenever all workers are idle and a spawner waits or is about to, a permit is stored, a notification is on its way or some spawner is still scanning |
| `Dispatcher.WaitingSpawnerCanProceed` | core/src/shared.rs:340-344 | in such a state some spawner reserves a worker within three steps of the dispatcher alone |
| `DispatcherScan.SawBusy` | core/src/shared.rs:581-587 | a spawner that is about to wait has found every worker busy, one after the other in this scan |
| `DispatcherGap.OverlookedOnlyWhileBusy` | core/src/shared.rs:574-589 | a spawner is parked beside an idle worker with nothing on its way to wake it only while another worker is busy |
| `DispatcherGap.OneWorkerNeverOverlooks` | core/src/shared.rs:574-589 | this never happens in a pool of one worker |
| `DispatcherGap.TwoWorkersMayOverlook` | core/src/shared.rs:574-589 | every pool of two or more workers has a schedule that gets there, since two notifications leave one permit |
| `Pools.PoolRefinesDispatcher` | core/src/shared.rs:574-589 | every step of a pool of full workers is a step of the abstract dispatcher or leaves it alone |
| `Pools.SharedPoolAlways` | core/src/shared.rs:869-983 | in every schedule of a shared pool all workers keep their invariant and the dispatcher keeps its own |
| `Pools.SharedPoolNeverStrands` | core/src/shared.rs:574-589 | no schedule of a shared pool strands a spawner while all workers are idle |
| `Pools.OneTaskEach` | core/src/shared.rs:340-344 | if tasks are spawned through the pool only, each worker has at most one task being sent, queued or held |
| `Pools.PinnedKeyIsOneActor` | core/src/pinned.rs:401-405 | for any hash, worker count and schedule the tasks of a key live on one worker and form one sequential actor there, and no other worker ever sees the key |
| `InvokeQueue.PutRefines` | core/src/invoke.rs:104-125 | enqueuing lazily stands for deleting the queued event of the key and appending |
| `InvokeQueue.TakeRefines` | core/src/invoke.rs:71-86 | dequeuing and forgetting the generation stands for the take of the simple queue, which runs items by priority and age, and finds nothing exactly when that is empty |
| `InvokeQueue.PriorityKeepsKeys` | core/src/invoke.rs:76-81 | a high or normal item never clears a generation, whatever key it carries |
| `InvokeQueue.SimpleAlways` | core/src/invoke.rs:104-151 | in every run received items are executed, superseded or still queued, each once; only keyed events are superseded; high and normal items keep their order |
| `InvokeQueue.NewestRuns` | core/src/invoke.rs:140-149 | a keyed event runs only while it is the last event received under its key |
| `InvokeOrder.PriorityFirst` | core/src/invoke.rs:128-139 | a normal item runs only when every high item received has run, an event only when every high and normal item has |
| `InvokeOrder.EarliestEventRuns` | core/src/invoke.rs:140-149 | the event that runs is the earliest: every event received before it has been executed or superseded |
| `InvokeOrder.UnkeyedInOrder` | core/src/invoke.rs:104-125 | in every run the events without a key run in the order they came and none is lost |
| `InvokeOrder.OnlyOlderSuperseded` | core/src/invoke.rs:104-125 | in every run an event is superseded only by a later event of its key |
| `InvokeOrder.EveryTakeInOrder` | core/src/invoke.rs:71-86 | priorities and the order of events hold at every take of every run, and so of the runs of the host |
| `InvokeQueue.Queue.EnqueueItem` | core/src/invoke.rs:104-125 | the three queues and the generations change as the lazy queue's put |
| `InvokeQueue.Queue.DequeueItem` | core/src/invoke.rs:128-151 | the first high item, else the first normal one, and otherwise the loop over stale events returns the first live one |
| `InvokeQueue.Queue.Process` | core/src/invoke.rs:72-81 | taking an item forgets its generation exactly when it is the newest |
| `InvokeQueue.Drain` | core/src/invoke.rs:56-69 | a draining phase puts what the channel hands out, in order, at most 64 items, and ends where the channel was found empty or closed or the batch is full |
| `InvokeQueue.Wait` | core/src/invoke.rs:89-99 | a wait puts exactly the next item, however often the channel is found empty first, or none when the channel closes |
| `InvokeQueue.PlayRound` | core/src/invoke.rs:54-100 | one round of the task keeps the lazy queue in step with the simple queue and does exactly the puts and the take of the round |
| `InvokeQueue.EnoughRound` | core/src/invoke.rs:54-100 | a round never lets the queued items and those to come outnumber the empty polls left, and the last round leaves nothing queued |
| `InvokeQueue.AllRunInTheEnd` | core/src/invoke.rs:44-101 | once the channel has been found empty at its end as often as items arrived, nothing is queued and every item was executed or superseded, each once |
| `InvokeOrder.TakeAfterDrain` | core/src/invoke.rs:54-69 | an item is taken only after the channel was found empty or 64 items came, and the task returns exactly when fewer than 64 items are left and no sender |
| `InvokeOrder.ClosedRunsNothing` | core/src/invoke.rs:67 | fewer than 64 items of a channel that is closed before it is found empty are all dropped |
| `InvokeQueue.Run` | core/src/invoke.rs:44-101 | the puts and takes are exactly those of the rounds: one drain, then one take if anything is queued and only otherwise a wait, until the channel is closed; what is executed is what the simple queue executes on them, every item that arrived is received in order, and no more than 65 puts come between two takes |
| `TaskLists.Retain` | core/src/context.rs:213 | a sweep keeps exactly the unfinished handles in order, with one check a handle |
| `TaskLists.TaskList.PushTaskHandle` | core/src/context.rs:206-217 | a push sweeps exactly when the list has grown to its threshold |
| `TaskLists.SweepBound` | core/src/context.rs:206-217 | over any pushes the checks are at most twice the pushes less what grew since the last sweep, and the list is at most 64 or twice that sweep's survivors |
| `TaskLists.FirstSweep` | core/src/context.rs:198-217 | the first 64 pushes check nothing and the next one checks them all |
| `TaskLists.NothingLost` | core/src/context.rs:206-217 | no unfinished handle is ever discarded and the order is kept |
| `TaskLists.PushWithinTwiceLive` | core/src/context.rs:200-217 | whatever has finished by then, a push leaves the list within twice its live handles exactly if it sweeps or the list held at most one handle |
| `TaskLists.TwiceLiveFails` | core/src/context.rs:200-205 | one handle that finishes after its push already breaks that bound |
| `TaskLists.SpawnThenAbort` | core/src/context.rs:276-354 | n spawns make exactly the checks of the sweeps, fewer than 2n, and aborting everything takes out exactly the handles the spawns left and reaches every unfinished task |
| `Scopes.StepKept` | core/src/context.rs:295-345 | every step keeps the current scope registered and uncancelled and every unfinished promise in the list of its scope or aborted |
| `Scopes.ScopesAlways` | core/src/context.rs:228-259 | this holds in every run, with host code running inside polls |
| `Scopes.CancelledScopesStaySilent` | core/src/promise.rs:132-166 | after a scope is cancelled none of its promises is settled in any later step, also when the cancel happens inside the poll of the promise's own future, unless its result was already being converted |
| `Scopes.ConvertingStillSettles` | core/src/promise.rs:156-159 | a promise whose result is being converted settles whatever was cancelled |
| `Scopes.CancelWhileConverting` | core/src/promise.rs:156-159 | a run in which the conversion cancels the scope of its own promise and the promise settles |
| `Scopes.AbortsReachAll` | core/src/context.rs:331-354 | cancelling a scope has aborted all its unfinished promises, closing the context all unfinished promises |
| `ScopeHistory.ScopesFromHistory` | core/src/context.rs:295-345 | in every run exactly the scopes begun and not cancelled are registered, and the current one is the one last begun or entered, if it was open then and is still |
| `ScopeHistory.PromiseKeepsScope` | core/src/promise.rs:109-131 | every promise made before the context is closed has a task that belongs to the scope current when it was made |
| `ScopeHistory.TaskWasMade` | core/src/promise.rs:109-131 | every task is that of such a promise |
| `ScopeHistory.AbortedExactly` | core/src/context.rs:331-354 | an unfinished promise has been aborted if and only if the context was closed or its scope cancelled |
| `ScopeHistory.ReadyPromiseSettles` | core/src/promise.rs:132-166 | a promise of no cancelled scope settles once its future is ready, and the next poll of any other ends its task unsettled |
| `Scopes.TaskRegistry.BeginScope` | core/src/context.rs:295-307 | a scope with a number never used before becomes current |
| `Scopes.TaskRegistry.EnterScope` | core/src/context.rs:313-329 | a registered scope becomes the current one, any other leaves none, and the previous one is returned |
| `Scopes.TaskRegistry.AbortEach` | core/src/context.rs:254-258 | the loop aborts exactly the unfinished tasks of the list |
| `Scopes.TaskRegistry.CancelScope` | core/src/context.rs:331-345 | a registered scope is removed, marked and its tasks aborted; the result says whether it existed |
| `Scopes.TaskRegistry.FromFuture` | core/src/promise.rs:109-172 | a promise's task joins the context's list and its scope's list, or is not spawned once closed |
| `Scopes.TaskRegistry.AbortEverything` | core/src/context.rs:347-354 | closing takes all handles out and aborts the unfinished tasks |
| `Scopes.TaskRegistry.PollFuture` | core/src/promise.rs:209-227 | a poll checks its scope on both sides of the inner poll, whatever host code does inside it |
| `Scopes.TaskRegistry.Convert` | core/src/promise.rs:156-159 | the result is converted, whatever host code that runs, and then the promise settles |
| `Services.ServiceContainer.OnShutdown` | core/src/context.rs:380-384 | shutting one service down accounts for it and for all services it registers meanwhile, nested ones included, and uses up exactly the numbers and registrations of that cascade |
| `Services.CascadeExactly` | core/src/context.rs:380-384 | a cascade of shutdowns makes one call for each service registered meanwhile and registers exactly what these calls register, as long as any do |
| `Services.ServiceContainer.Register` | core/src/context.rs:380-393 | a service is held once, or shut down at once with its whole cascade when closed; the one it replaces is kept |
| `Services.ServiceContainer.Get` | core/src/context.rs:395-410 | the service registered last under the type is found until the container is closed |
| `Services.ServiceContainer.RegisterState` | core/src/context.rs:412-425 | state is kept like a service, and dropped without a call once closed |
| `Services.ServiceContainer.Shutdown` | core/src/context.rs:443-456 | every current and replaced service is shut down once, with exactly the registrations their calls cause, and a second call does nothing |
| `Services.Context.CloneHandle` | core/src/context.rs:1034-1046 | the owner count stays the number of live owning handles |
| `Services.Context.BorrowHandle` | core/src/context.rs:549-564 | a handle from the engine's data does not own the context |
| `Services.Context.DropHandle` | core/src/context.rs:995-1010 | services are shut down exactly when no owning handle is left, and the count never underflows |
| `Services.Context.TaskRegistry` | core/src/context.rs:778-786 | after shutdown only a registry that is already closed is handed out |
| `Services.Context.SpawnTask` | core/src/context.rs:798-803 | no task is spawned after shutdown |
| `Services.Life` | core/src/context.rs:371-456 | in any life of a context the services set get distinct numbers and the one set last under a type is found, no service is shut down while an owning handle is left, afterwards every service ever registered has been exactly once, and a task is spawned exactly while an owner is left and the tasks were not drained |
| `Bytes.PrintParse` | rong_rt/src/sse.rs:658-661 | a printed number is parsed back exactly when it fits in 64 bits |
| `SseParser.FeedConcat` | rong_rt/src/sse.rs:460-468 | feeding two chunks is feeding their concatenation |
| `SseParser.ChunkingIndependence` | rong_rt/src/sse.rs:448-480 | events, pending event, last id, delay and leftover depend on the bytes only |
| `SseParser.LeftoverHasNoLine` | rong_rt/src/sse.rs:622-628 | the leftover never holds a line feed |
| `SseParser.GoneForGood` | rong_rt/src/sse.rs:703-707 | once the consumer is gone nothing more is sent |
| `SseParser.ParseLinesAgree` | rong_rt/src/sse.rs:613-667 | parsing that stops at an event nobody takes has sent what the byte parser sends, and agrees with it in everything otherwise |
| `SseParser.BodyAgrees` | rong_rt/src/sse.rs:442-505 | whatever the chunks and whenever the consumer leaves, it gets exactly the events of the bytes |
| `SseParser.SseState.FlushPendingEvent` | rong_rt/src/sse.rs:669-708 | ending an event updates delay and last id, sends it exactly when it has data, and fails exactly when the consumer is gone |
| `SseParser.SseState.TakeLine` | rong_rt/src/sse.rs:622-665 | one line has the effect of the reference, and fails exactly when it ends an event nobody takes |
| `SseParser.SseState.ParseAvailableEvents` | rong_rt/src/sse.rs:613-667 | the line loop terminates and equals line-by-line parsing, which agrees with the byte-at-a-time parser |
| `SseParser.SseState.ReadChunk` | rong_rt/src/sse.rs:456-468 | a chunk extends the leftover of the chunk before |
| `SseParser.SseState.EndBody` | rong_rt/src/sse.rs:483-505 | trailing bytes are one more line and an unfinished event is dispatched |
| `SseParser.SseState.ReadBody` | rong_rt/src/sse.rs:442-505 | over any chunks and any ending the consumer gets exactly the events of the bytes |
| `SseRoundTrip.RoundTrip` | rong_rt/src/sse.rs:613-708 | events written with any mix of LF and CRLF, optional spaces, colons left out after a name without a value, and comments, cut into any chunks, give back the same types, data and ids in order |
| `SseRoundTrip.RetrySetsDelay` | rong_rt/src/sse.rs:677-679 | a retry field sets the delay to its number, if it fits in 64 bits: to 1 if it is 0, to the longest delay if it is above that |
| `SseRoundTrip.FieldAndValue` | rong_rt/src/sse.rs:648-652 | a line without a colon is a field with an empty value; otherwise the value is what follows the first colon, without one space in front of it |
| `SseStandard.LinesAgree` | rong_rt/src/sse.rs:613-630 | on every stream in which each CR is followed by LF the parser takes exactly the lines of the Standard, and keeps the same rest |
| `SseStandard.LoneCrEndsLine` | rong_rt/src/sse.rs:622-628 | the Standard sees more lines than there are line feeds if and only if some CR is not followed by LF |
| `SseStandard.EventsAgree` | rong_rt/src/sse.rs:613-708 | on every stream without a leading byte order mark, lone CR or empty type the consumer has got the Standard's events, with types, data and ids, as many as it took, and the pending event is the Standard's buffers |
| `SseStandard.AgreesWithStandard` | rong_rt/src/sse.rs:442-505 | on every such stream, in any chunks, the consumer gets exactly the Standard's events if and only if no data is left unfinished at the end or it was gone by then |
| `SseStandard.IdAgrees` | rong_rt/src/sse.rs:483-505 | the id to resume from is the Standard's if and only if the stream does not end between a different id and the blank line after it |
| `SseStandard.DelayAgrees` | rong_rt/src/sse.rs:658-679 | the delay is the Standard's last reconnection time brought between 1 and the longest, if every retry value is read alike by both |
| `SseStandard.OddRetryExactly` | rong_rt/src/sse.rs:658-661 | a retry value is read differently exactly if it is a number with a plus sign or one that does not fit in 64 bits |
| `SseDifferences.LoneCrStaysInData` | rong_rt/src/sse.rs:622-628 | a lone CR stays inside the data, for all data around it, where the Standard's first event has other data |
| `SseDifferences.BomHidesField` | rong_rt/src/sse.rs:630-651 | a byte order mark hides the field it precedes and so the event, which the Standard dispatches |
| `SseDifferences.UnfinishedEventIsSent` | rong_rt/src/sse.rs:483-505 | an unfinished event is dispatched at the end of the stream, where the Standard dispatches none |
| `SseDifferences.EmptyTypeIsKept` | rong_rt/src/sse.rs:654-655 | an empty event field gives an event of the empty type, where the Standard gives the default type |
| `SseDifferences.PlusSignIsRead` | rong_rt/src/sse.rs:658-661 | a retry time may carry a plus sign, which the Standard ignores |
| `SseDifferences.IdIsCarriedOver` | rong_rt/src/sse.rs:681-690 | an event without an id carries the last id of earlier connections, so that it is the Standard's event exactly if there was none |
| `SseDifferences.UnfinishedIdIsKept` | rong_rt/src/sse.rs:483-505 | the id of an unfinished event is kept for the next connection, where the Standard drops it |
| `SseReconnect.NextDelay` | rong_rt/src/sse.rs:375-376 | saturating doubling never strays from the first delay times a power of two capped at the longest |
| `SseReconnect.HealthyStep` | rong_rt/src/sse.rs:677-679 | every attempt keeps the delay between 1 and the longest and sends at most one error, last |
| `SseReconnect.RunAccounted` | rong_rt/src/sse.rs:334-531 | over any attempts the streaks account for every wait, the delay, the retry count and the streams opened |
| `SseReconnect.OneWaitARound` | rong_rt/src/sse.rs:507-531 | there is one wait for every attempt made but the one that ends the worker |
| `SseReconnect.RunHeard` | rong_rt/src/sse.rs:442-523 | the consumer hears the events of the bodies in order, the last id going on from one to the next, and then the error if there is one |
| `SseReconnect.RunWaitsRight` | rong_rt/src/sse.rs:325-379 | the first streak starts from the base delay, every other from the delay its body left, and each wait is the first delay times a power of two |
| `SseReconnect.SseWorker.WaitToReconnect` | rong_rt/src/sse.rs:374-379 | a wait takes the current delay, counts a retry and doubles the delay up to the longest |
| `SseReconnect.SseWorker.Listen` | rong_rt/src/sse.rs:442-523 | an opened stream starts retries and delay over, is read to its end, and the worker goes on exactly if another retry is allowed |
| `SseReconnect.SseWorker.Connect` | rong_rt/src/sse.rs:334-531 | each attempt changes stream, retries, waits and opened streams as the specification step, and another follows exactly when that goes on, which is exactly when the script allows it (`ScriptDecides`) |
| `SseRuns.RoundBranches` | rong_rt/src/sse.rs:366-440 | another round follows exactly if the request failed to be sent, the body was empty or the stream ended, reconnecting is on, and the waits since a stream last opened are below the limit; an error follows exactly a refusal or a failure with no retry left |
| `SseRuns.ScriptDecides` | rong_rt/src/sse.rs:334-531 | the script decides the number of rounds, the length of every wait, the streams opened and the ending of every run |
| `SseRuns.UnreachableServer` | rong_rt/src/sse.rs:368-380 | if no request can be sent there is one round and one for every retry, with waits that double from the base delay up to the longest, and then the error |
| `SseRuns.RunSseWorker` | rong_rt/src/sse.rs:302-532 | for any script of rounds: how many are made, each wait, the streams opened and whether the run ends in an error are what the script alone says; the history is the events of the bodies in order and then one error exactly if it ends in one and the consumer still listens |
| `Coalescing.Streamer.ForwardOrBufferChunk` | rong_rt/src/client.rs:163-180 | sent bytes plus buffer are the body so far, the buffer is shorter than the target, every chunk sent reaches it |
| `Coalescing.Streamer.Finish` | rong_rt/src/client.rs:580-596 | the buffer follows a clean end, follows the error after a failure, and is dropped on an abort |
| `Coalescing.ErrorBeforeBytes` | rong_rt/src/client.rs:585-593 | for all frames, bytes arrive after the error if and only if the body fails with some buffered, and never when joining is off |
| `Coalescing.Streamer.StreamBody` | rong_rt/src/client.rs:524-597 | before the first error the receiver gets a prefix of the body, and all of it after a clean end |
| `Coalescing.StreamResponse` | rong_rt/src/client.rs:516-597 | a listening receiver gets exactly the joined chunks of the frames and their ending, unbroken exactly after a clean end; chunks but the last have at least 4096 bytes and the size asked for, and with joining off each frame is one chunk |
| `ContentRanges.AcceptedRanges` | rong_rt/src/download.rs:506-532 | an accepted range is not empty, lies inside the resource and fits in 64 bits |
| `ContentRanges.PrintParseRange` | rong_rt/src/download.rs:506-539 | a header printed as section 14.4 of RFC 9110 writes it is read back exactly when it makes sense and refused otherwise |
| `ContentRanges.PaddedRange` | rong_rt/src/download.rs:506-532 | blanks around the header, its numbers and its length make no difference |
| `ContentRanges.AcceptedForm` | rong_rt/src/download.rs:506-532 | an accepted range is the unit, two numbers with a dash between them and a length or a star after a slash, and says these numbers |
| `ContentRanges.EveryRangeSayable` | rong_rt/src/download.rs:494-504 | every range that makes sense is what some header says |
| `Downloads.Downloader.Fetch` | rong_rt/src/download.rs:208-245 | returns the response at the end of at most ten redirects, if they can be followed, with exactly one request for every redirect followed and the answer that ends them |
| `Downloads.RequestsBounded` | rong_rt/src/download.rs:208-245 | whatever the servers answer, ten redirects make at most eleven requests |
| `Downloads.Downloader.Judge` | rong_rt/src/download.rs:247-345 | which responses complete a download or have their body taken in, as the rest or as all of the resource, and what happens to the files, the removal of a stale part file included |
| `Downloads.Downloader.ReceiveBody` | rong_rt/src/download.rs:360-399 | the file grows by a prefix of the body, by all of it on success, and never past the advertised length |
| `Downloads.Downloader.Store` | rong_rt/src/download.rs:371-422 | the destination is replaced only by a whole body of the advertised length |
| `Downloads.SinkClosedOnce` | rong_rt/src/download.rs:347-358 | wherever a download ends its sink was written to and then closed exactly once, with the result or, if it refused a chunk, with a failure |
| `Downloads.SinkGetsAll` | rong_rt/src/download.rs:347-358 | a sink that refuses nothing gets every byte of the body |
| `Downloads.HonestBody` | rong_rt/src/download.rs:255-300 | what a truthful 200 or 206 adds to a prefix of the resource is a prefix again, and the whole resource if not cut |
| `Downloads.HonestCompletes` | rong_rt/src/download.rs:255-300 | a truthful 200 or 206 that is not cut completes the download |
| `Downloads.Downloader.Respond` | rong_rt/src/download.rs:247-422 | acting on any response replaces the destination only on success, by the old part and the body it added, and leaves otherwise a part extended by a prefix of that body; exactly which responses and which file operations decide |
| `Downloads.Downloader.DownloadResource` | rong_rt/src/download.rs:153-423 | an attempt makes exactly the requests of its redirects, closes the sink once with the result, replaces the destination only by a response that completes the download, keeps the part file otherwise, and succeeds exactly on those responses if no file operation it needs fails |
| `Downloads.AttemptBounded` | rong_rt/src/download.rs:208-422 | an attempt sends at most eleven requests, a partial success leaves exactly the advertised length, and a failed one never a longer part file |
| `Downloads.AttemptHonest` | rong_rt/src/download.rs:247-422 | an attempt at truthful servers keeps the part file a prefix of the resource and leaves the resource if it succeeds, unless it ends in another success than 200, 206 and 416 |
| `Downloads.AttemptSucceeds` | rong_rt/src/download.rs:247-422 | an attempt that meets a truthful answer in place and not cut, while no file operation fails, succeeds and leaves the resource |
| `DownloadOutcomes.RestCompletes` | rong_rt/src/download.rs:261-278 | after at most ten redirects a 206 with exactly the rest of the resource completes a part file of it |
| `DownloadOutcomes.CutRestIsKept` | rong_rt/src/download.rs:371-399 | if that rest is cut, what came of it is appended to the part file |
| `DownloadOutcomes.WholeCompletes` | rong_rt/src/download.rs:254-260 | a 200 with the whole resource completes a download, whatever the part file was |
| `DownloadOutcomes.NothingLeftCompletes` | rong_rt/src/download.rs:314-328 | a 416 that names the length of the part file completes it |
| `DownloadOutcomes.NothingElseCompletes` | rong_rt/src/download.rs:247-345 | no other answer completes a part file; another 416 has it removed, and any other status leaves it alone |
| `DownloadOutcomes.FreshCompletes` | rong_rt/src/download.rs:247-345 | without a part file exactly the successes other than 206 complete a download, with their body |
| `DownloadOutcomes.AnswerReached` | rong_rt/src/download.rs:208-245 | up to ten redirects are followed, with one request each and one for the answer |
| `DownloadOutcomes.TooManyRedirects` | rong_rt/src/download.rs:237-239 | the eleventh redirect is not followed |
| `DownloadOutcomes.FailureIsReported` | rong_rt/src/download.rs:163-422 | an attempt in which the directory, the file, a write, the flush or the rename fails does not succeed and leaves the destination |
| `Downloads.HonestTrace` | rong_rt/src/download.rs:171-198 | over any attempts at truthful servers, cut anywhere, the part file stays a prefix of the resource and the destination is the resource from the first success on and untouched before |
| `Downloads.UndisturbedSucceeds` | rong_rt/src/download.rs:171-198 | however the attempts before it went, one that is not disturbed succeeds and leaves the resource and no part file |
| `Downloads.ResumeOverAndOver` | rong_rt/src/download.rs:171-198 | one result for each attempt, each exactly what the attempt does to the files the one before it left; with truthful servers the part file stays a prefix of the resource, the destination is the resource exactly if some attempt succeeded, and every undisturbed attempt succeeds |
| `Downloads.NoContentEmptiesDestination` | rong_rt/src/download.rs:343-345 | a truthful 204 to a fresh request succeeds and leaves an empty destination |
| `Downloads.StreamedBody` | rong_rt/src/client.rs:516-597 | a joined stream of the resource's frames, perhaps cut, is an honest body |
| `Modules.AddDependencies` | rong_modules/src/lib.rs:147-158 | adds what every closed mask containing the module must contain, and fails only if there is none |
| `Modules.ResolveModuleMask` | rong_modules/src/lib.rs:115-170 | terminates with the least dependency-closed mask of the request, an error exactly for unknown names, or an error when no closed mask exists |
| `Modules.Context.Init` | rong_modules/src/lib.rs:220-243 | a call runs, in registry order, exactly the initialisers of the least closed mask of its request that are not yet initialised, up to the first that fails; it succeeds if none fails, and does nothing if no closed mask exists |
| `Modules.CallDoes` | rong_modules/src/lib.rs:220-243 | a call initialises only what every closed mask of its request contains, everything requested if it succeeds, and succeeds if the request can be resolved and no initialiser fails |
| `Modules.TraceDoes` | rong_modules/src/lib.rs:220-243 | over any calls only modules that some call needs are initialised, and the requests of all calls that succeeded are |
| `Modules.InitOverAndOver` | rong_modules/src/lib.rs:220-243 | one result for each call, each exactly what the call does to what the calls before it left; over all of them an initialiser runs only after its dependencies succeeded and succeeds at most once, only needed modules are initialised and those of every successful call are |
| `Modules.BuildsOrdered` | rong_modules/src/lib.rs:68-102 | whatever modules a build enables, its registry is in dependency-first order |

## Left out

- The engine backends, procedural macros, type generation, command line, logging and examples: foreign interfaces and wiring around the protocols.
- HTTP, DNS, TLS, the client cache and the network observer: a response and its frames are inputs chosen freely.
- Responses small enough to be read whole by the client: their body is one chunk of the download model.
- Time and fairness: a deadline is a step that may fire at any moment; no latency is claimed.
- Waking of `Worker::join` and `PinnedWorker::join`: they load the count before they wait, so no claim is made that they always wake.
- A send accepted between the last `try_recv` of the drain and the drop of the receiver: the task is counted as stranded rather than excluded.
- Overflow of the scoped interrupt count inside a schedule: the class models the panic, the transition system counts without bound.
- A panic of the future factory itself, which unwinds the worker thread.
- Spawning directly on one worker of a pinned pool with a key of another: the pool theorem is about spawns routed by key.
- Overflow of generations, scope numbers and lifecycle counts: they are unbounded numbers here.
- Order of the nested shutdowns of services registered during a shutdown: the model takes them one after another.
- The initial-open notification, the request headers and the URL handling of the event-stream client and of downloads.
- UTF-8 decoding: an arbitrary function of the bytes of a line, also where the Standard decodes the whole stream first; the round trip asks that it leaves the written lines unchanged.
- Buffered writes of the asynchronous file type: a write takes effect when it returns, and two downloads never share a part file.
- Names in the result and the error texts of module resolution, and initialisers that call `init` again.
