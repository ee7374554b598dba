# A verified model of rclpy's scheduling, parameter and action bookkeeping

rclpy is the Python client library of ROS 2. This project models the parts of it that are hard
to get right by reading one function at a time, and proves what they guarantee:

* **Futures, tasks and executors.** `Futures` is one future completed, cancelled and listened to
  by any number of threads. `TaskCalls` is one task called by any number of workers. `Scheduling`
  is the single-threaded executor with any number of tasks and futures, `SchedulingProgress`
  which of its tasks can still run. `ReadyQueues` is the
  generator's pass over the ready queue, `Handlers` the callback groups and the per-entity flag,
  `WorkTracking` the tracker that counts callbacks in flight, `Shutdown` spinning against
  concurrent shutdown calls.
* **The asyncio read loop** of subscriptions and services against a foreign thread: `ReadLoop`.
* **The parameter store.** `Parameters` has values, descriptors and checks, `ParameterStores` the
  operations on the two dictionaries, `ParameterInvariants`, `AtomicSetting`,
  `SettingWithCallbacks` and `ParameterDeclaring` their properties,
  `ParameterListing` and `ParameterFiles` the listing and the flattening of dotted names
  (`DottedNames`), `TimeSources` the time source that follows `use_sim_time`.
* **Actions.** `ActionClients` is the client's bookkeeping of pending requests, `ActionServers` the
  server's answers to result requests, built on `Futures`.

Objects that change in place are classes with one method for each lock region, unlocked write or
loop of the source. The contract of such a method states its whole effect by a function on values,
and the same function is a step of a state machine `Next(state, event)` (module `Runs`) in which
all interleavings are possible: a theorem about `Exec(Next, INITIAL, events)` for every list of
events is a theorem about every run. What the middleware, the clock, user callbacks and the thread
scheduler do is in the choice of the events and is not restricted. `Bags` and `Lists` are helpers.

Lemmas named after a defect (`SpinOnceCanWaitOnDestroyedGuards`, `ResumeCanBeIgnored`,
`GuardConditionsCanHaveTwo`, `GoalsCanBeAbandoned`, `RepeatedNamesCanDisagree`,
`ReplayNeedsDistinctNames`, `RepeatedEntriesBreakAgreement`, `VetoAfterTimeSourceBreaksAgreement`,
`DottedKeysCollide`) exhibit a run or an input for which the natural stronger claim does not hold;
the theorem next to each states what does hold.

## Assumptions

* Every lock region, every unlocked write and every generator segment between two suspension
  points is atomic; nothing larger is.
* User callbacks neither re-enter the parameter store nor change the list they are given, and do
  not raise. The functions that take a message for a handler do not raise either; they run outside
  the `try` that ends the callback group (rclpy/rclpy/executors.py:801-805).
* A descriptor object is not shared between parameters, because checking writes into it
  (rclpy/rclpy/node.py:1204-1215).
* The executor and the node stay alive. Coroutines yield None or a future that belongs to no other
  executor (anything else raises, and wedges the task: `TaskCalls.MisbehaviourWedges`).

## Model

| member | source | states |
|---|---|---|
| `Futures.Future.CancelCheck` | rclpy/rclpy/task.py:91-93 | the locked check of cancel only reports whether the future is pending; it changes nothing |
| `Futures.Future.CancelWrite` | rclpy/rclpy/task.py:95 | the unlocked write sets the status to cancelled whatever it has become since the check; list, executor, result and exception stay |
| `Futures.Future.SetResult` | rclpy/rclpy/task.py:142-144 | stores the result and the finished status without looking at the present status |
| `Futures.Future.SetException` | rclpy/rclpy/task.py:154-157 | the same for an exception; a result set earlier stays stored |
| `Futures.Future.TakeCallbacks` | rclpy/rclpy/task.py:167-171 | returns the whole list in order and leaves an empty one, in one step |
| `Futures.Future.HandOver` | rclpy/rclpy/task.py:173-192 | the loop over the taken list loses and doubles nothing: with an executor everything is queued in order, without one exactly the callbacks are called and exactly the tasks dropped |
| `Futures.Future.Listen` | rclpy/rclpy/task.py:218-250 | an entry is listed only while the future is pending; otherwise the caller is told to hand it over; a unique callback already listed is skipped |
| `Futures.Future.Remove` | rclpy/rclpy/task.py:259-264 | takes out the first occurrence only and reports whether there was one |
| `Futures.Future.SetExecutor` | rclpy/rclpy/task.py:194-200 | binds or unbinds the executor and changes nothing else |
| `Futures.CallbacksAreConserved` | rclpy/rclpy/task.py:136-250 | at every point of every interleaving each registration is in exactly one of: listed, carried by a call in flight, taken back, queued, called, dropped; so none is delivered twice and none is lost; a completed future lists something only while a call is between its status write and its swap; callbacks are never dropped |
| `Futures.CompletionDeliversEverything` | rclpy/rclpy/task.py:136-250 | once the future is complete and all calls have returned, each callback registration not taken back has been queued or called exactly once, whether it was made before, during or after the completion |
| `Futures.ExecutorDecidesThePlace` | rclpy/rclpy/task.py:173-192 | in every run in which the executor reference keeps resolving, every callback handed over is queued there, none is called by the completing or registering thread and no task is dropped; in every run without executor none is queued |
| `Futures.CompletionIsForever` | rclpy/rclpy/task.py:86-112 | a future that is not pending never becomes pending again |
| `Futures.TerminalStatusCanChange` | rclpy/rclpy/task.py:89-96 | but the status may change: a reachable race turns finished into cancelled, and a later result turns it back |
| `Futures.TerminalStatusIsFinalExactly` | rclpy/rclpy/task.py:89-157 | a terminal status is kept by every continuation if and only if it is finished and no cancel sits between its check and its write; cancelled is never final |
| `Futures.UniqueNeverAccumulates` | rclpy/rclpy/task.py:220-222 | a callback only ever registered as unique is listed at most once after any run |
| `TaskCalls.Task.Call` | rclpy/rclpy/task.py:321-355 | an undisturbed call runs the handler if and only if the task is pending, not executing and not locked; it then frees the lock, leaves `_executing` set exactly if the step misbehaves and the task pending exactly if the step does not end it; otherwise it changes nothing |
| `TaskCalls.UndisturbedCall` | rclpy/rclpy/task.py:321-385 | that is the machine's call taken step by step by a thread that nobody disturbs: it runs to its end in every state with nobody inside, stops at the failing test otherwise, and another call is owed exactly if the task was suspended |
| `TaskCalls.StepsNeverOverlap` | rclpy/rclpy/task.py:321-355 | for any number of callers and every interleaving of the unlocked tests, two steps of one task never overlap, and the handler is still there whenever a caller gives it control |
| `TaskCalls.CallsAreIgnoredExactlyOnCollision` | rclpy/rclpy/task.py:330-338 | in every run without a misbehaving step, calls of the pending task go unheeded if and only if some call tests `_executing` while another thread is in a step, or tries the lock while another thread holds it |
| `TaskCalls.SoleCallerIsNeverIgnored` | rclpy/rclpy/task.py:330-338 | so with one calling thread no call of the pending task is ever ignored |
| `TaskCalls.StrandedExactlyByAnIgnoredCall` | rclpy/rclpy/task.py:330-385 | if the task is called as often as creation and suspensions owe it, at most one call of the pending task is ignored, and with nobody inside it is owed no further call if and only if one was |
| `TaskCalls.StrandedForEver` | rclpy/rclpy/task.py:330-385 | and then no thread ever enters it again |
| `TaskCalls.ResumeCanBeIgnored` | rclpy/rclpy/task.py:330-349 | it happens with two workers: the one call owed to a suspended, pending task is ignored, and the task is left with nobody inside and no call owed |
| `TaskCalls.WedgedForEver` | rclpy/rclpy/task.py:339-355 | a task on which `_executing` was left set never runs again, in no run |
| `TaskCalls.MisbehaviourWedges` | rclpy/rclpy/task.py:368-385 | a step that raises out of the coroutine bookkeeping leaves the task in that state, as pending as it was, if and only if no other thread is already past the test of `_executing` |
| `Scheduling.EveryPendingTaskIsInOnePlace` | rclpy/rclpy/task.py:357-397 | in every run, with tasks from create_task and handlers the generator yields directly, a pending task is in exactly one place (ready queue, list of one future, in transit from a completer, held by the spinner, on its way from create_task), a task that is over in at most one; no pop meets an empty queue, every lookup in `_pending_tasks` succeeds, no task is dropped, and no future is awaited a second time while pending |
| `Scheduling.NoTaskIsStranded` | rclpy/rclpy/task.py:159-171 | a task parked on a completed future is about to be swapped out by a completer, and the future knows its executor |
| `Scheduling.CompletionQueuesWaitersInOrder` | rclpy/rclpy/task.py:159-179 | that completer can always proceed, and appends all tasks suspended on the future to the ready queue in the order in which they were suspended |
| `Scheduling.QuietTasksAreQueuedOrWaiting` | rclpy/rclpy/executors.py:353-380 | when nobody is in the middle of anything, a pending task is queued exactly once or parked exactly once, on a future that is itself still pending |
| `SchedulingProgress.RunsLaterExactly` | rclpy/rclpy/executors.py:875-898 | in every reachable state a task has a continuation in which it runs if and only if it is running already, or it is pending and does not await itself |
| `SchedulingProgress.PassReaches` | rclpy/rclpy/executors.py:884-898 | the pass in progress reaches a queued pending task after those before it and the spinner runs it, whatever they are |
| `ReadyQueues.ReadyQueue.CreateTask` | rclpy/rclpy/executors.py:365-380 | a new task is known as pending and goes to the end of the queue |
| `ReadyQueues.ReadyQueue.Round` | rclpy/rclpy/executors.py:885-898 | one round yields the first task if it is alive and of the nodes to use, and drops or appends it otherwise, and then has what other threads appended; only tasks created meanwhile become known, and the lookup of the task succeeds |
| `ReadyQueues.ReadyQueue.Pass` | rclpy/rclpy/executors.py:875-898 | a pass looks at every task queued at its start once, in queue order, yields exactly those that are alive when their round comes and of the nodes to use, in queue order, and leaves exactly those put back and those that arrived; it never pops an empty queue and forgets only tasks that were over |
| `ReadyQueues.RoundsByFate` | rclpy/rclpy/executors.py:884-898 | the rounds on the changing queue equal the description task by task, for any queue and any arrivals |
| `ReadyQueues.FatesAreExact` | rclpy/rclpy/executors.py:886-898 | position by position: yielded are exactly the tasks alive in their round and of the nodes to use, dropped those that are over in their round, put back the others, each in queue order |
| `ReadyQueues.PutBackInOrder` | rclpy/rclpy/executors.py:895-898 | when nobody else appends, the queue afterwards is exactly what was put back, in the old order |
| `ReadyQueues.PassAccountsForEveryTask` | rclpy/rclpy/executors.py:884-898 | each task is dropped, yielded or put back exactly as often as it was queued, and afterwards is queued as often as put back plus arrived |
| `Handlers.MutuallyExclusiveCallbackGroup.CanExecute` | rclpy/rclpy/callback_groups.py:112-115 | true exactly when the group is free |
| `Handlers.MutuallyExclusiveCallbackGroup.BeginningExecution` | rclpy/rclpy/callback_groups.py:117-123 | admits the entity if and only if the group is free, and then remembers it |
| `Handlers.MutuallyExclusiveCallbackGroup.EndingExecution` | rclpy/rclpy/callback_groups.py:125-128 | frees the group, provided the assertion made there holds |
| `Handlers.MutualExclusion` | rclpy/rclpy/executors.py:790-821 | in every interleaving of handlers on any threads, at most one handler of an exclusive group lies between its granted beginning and its end, suspended coroutines included, and the group is free exactly when none does |
| `Handlers.EndingNeverFails` | rclpy/rclpy/callback_groups.py:125-128 | the assertion in ending_execution holds for every handler that reaches it |
| `Handlers.MadeExactlyIfFree` | rclpy/rclpy/executors.py:1030-1076 | in every run, the generator makes a handler for a ready entity it visits if and only if the group is reentrant or has no handler inside |
| `Handlers.AdmittedExactlyIfFree` | rclpy/rclpy/executors.py:789-795 | in every run, a handler that starts is admitted if and only if it was made before shutdown and its group is reentrant or has no handler inside; otherwise it is turned away |
| `Handlers.ReadyEntityIsServed` | rclpy/rclpy/executors.py:787-840 | an entity that passes can_execute, found ready, is served to the end when nobody interferes, and may then be waited for again |
| `Handlers.OneUntakenHandlerPerEntity` | rclpy/rclpy/executors.py:787-805 | for every entity but guard conditions, across abandoned and resumed generators, at most one handler is created and not yet taken or turned away, and `_executor_event` is set exactly while there is one |
| `Handlers.GuardConditionsCanHaveTwo` | rclpy/rclpy/executors.py:1057-1062 | guard conditions can have two, in a reachable state |
| `Handlers.OnlyGuardConditionsCanHaveTwo` | rclpy/rclpy/executors.py:1030-1076 | so exactly the guard conditions can have two, in some run |
| `WorkTracking.Tracker.Enter` | rclpy/rclpy/executors.py:128-131 | one more context of the calling thread |
| `WorkTracking.Tracker.Leave` | rclpy/rclpy/executors.py:135-146 | one context less of the thread that opened it, whichever thread runs this; the last one also ends that thread's membership among the waiters |
| `WorkTracking.Tracker.BeginWait` | rclpy/rclpy/executors.py:172-178 | joins the waiters and reports whether it was not one already |
| `WorkTracking.Tracker.CheckDrained` | rclpy/rclpy/executors.py:166-170 | true exactly when every thread with work in flight is a waiter |
| `WorkTracking.Tracker.EndWait` | rclpy/rclpy/executors.py:183-197 | leaves the waiters unless the wait succeeded with work of this thread still in flight, or an outer wait had joined them; `WaitAnswersExactly` says what that comes to in every run |
| `WorkTracking.CountsAreExactAndNoWakeupIsLost` | rclpy/rclpy/executors.py:112-197 | in every run a thread's count is the number of its open contexts, with an entry exactly if positive, so closing never fails on any thread; and no waiter sleeps while the condition it waits for holds |
| `WorkTracking.WaitersAreFinishing` | rclpy/rclpy/executors.py:99-109 | in every run, a thread with open contexts is a waiter if and only if it is inside wait or has been answered True since the first of them was entered; a thread without is one only while inside |
| `WorkTracking.WaitAnswersExactly` | rclpy/rclpy/executors.py:166-197 | a wait answers True if and only if every thread with open contexts is one of these; one that has joined and fails leaves its thread no waiter, one that succeeds leaves it a waiter exactly if it has a context open |
| `WorkTracking.CommittedByASuccessfulWait` | rclpy/rclpy/executors.py:183-197 | a thread becomes committed only by a wait of its own that answers True, and stops being so only when its last context is closed |
| `WorkTracking.DrainedIsStable` | rclpy/rclpy/executors.py:112-197 | "drained" survives a step if and only if the step is not the start of work on a thread outside the waiters |
| `WorkTracking.DrainedWaitsSucceed` | rclpy/rclpy/executors.py:148-197 | from a drained state on and without such new work, every wait that ends answers True, timeouts included |
| `WorkTracking.MutualWaitersAreDrained` | rclpy/rclpy/executors.py:99-109 | when every thread with work in flight is itself waiting, the tracker is drained |
| `WorkTracking.AllWaitersReturn` | rclpy/rclpy/executors.py:148-197 | from a drained state the waiters can return in any order, each with True |
| `WorkTracking.ConcurrentWaitersDoNotDeadlock` | rclpy/rclpy/executors.py:148-197 | in any reachable state in which all threads with callbacks in flight wait for each other, nobody sleeps and all return True without any further event |
| `Shutdown.Executor.EnterSpin` | rclpy/rclpy/executors.py:318-324 | succeeds if and only if nobody spins; a refused spin changes nothing |
| `Shutdown.Executor.ExitSpin` | rclpy/rclpy/executors.py:326-331 | clears the spinner and nothing else |
| `Shutdown.Executor.MarkShutdown` | rclpy/rclpy/executors.py:395-401 | sets the flag and reports whether it was this call that set it |
| `Shutdown.Executor.DestroyGuards` | rclpy/rclpy/executors.py:445-451 | destroys the guards if they are still there |
| `Shutdown.GuardsDestroyedOnceAfterDrain` | rclpy/rclpy/executors.py:386-455 | in every run of any spins and shutdowns the guards are destroyed at most once, with the flag set, by a call whose own wait came back drained; a shutdown answers True only when they are gone |
| `Shutdown.SpinGoesOnUntilShutdown` | rclpy/rclpy/executors.py:512-570 | in every run, with future, time and context permitting, a looping spin at its test or after a callback goes on for another pass if nobody has called shutdown, and leaves if somebody has; spin_once leaves after its callback |
| `Shutdown.UndisturbedShutdown` | rclpy/rclpy/executors.py:386-455 | a shutdown call that nobody disturbs answers True if and only if no other thread has uncommitted work in flight and no other thread spins; only then it destroys the guards and drops the generator; the flag is set in any case |
| `Shutdown.NobodyUsesDestroyedGuards` | rclpy/rclpy/executors.py:386-455 | with spin and spin_until_future_complete, however they end (shutdown, future done, time up, context gone, a callback raising): from the moment a shutdown has checked for the spinner, no thread is inside a wait pass, for ever; and a spin entered after shutdown was called starts no pass |
| `Shutdown.WaitsLaterExactlyIfPausedAtTask` | rclpy/rclpy/executors.py:869-1087 | for all ways of spinning: in every reachable state after that check, a pass waits on the guards now or in some continuation if and only if one does already, or the guards are still there and `_cb_iter` is paused at a ready task (not at an entity's handler) and its thread is not about to drop it |
| `Shutdown.FinishedShutdownIsSafe` | rclpy/rclpy/executors.py:445-455 | once the guards are destroyed no pass comes to wait on them any more, except one that waits already; and a finished shutdown leaves no generator paused |
| `Shutdown.PausedAtEntityNeverWaits` | rclpy/rclpy/executors.py:1030-1085 | after a spin_once that waited and ran one handler the generator is paused at an entity, and a pass that resumes it there never goes on to wait |
| `Shutdown.SpinOnceCanWaitOnDestroyedGuards` | rclpy/rclpy/executors.py:1107-1112 | the risk is real: spin_once resumes a paused generator without looking at the flag, and waits on guards that are destroyed under it |
| `ReadLoop.AsyncReader.TakeOne` | rclpy/rclpy/experimental/async_subscription.py:74-79 | takes the oldest message if there is one, and otherwise only notes that there was none |
| `ReadLoop.AsyncReader.ClearEvent` | rclpy/rclpy/experimental/async_subscription.py:80 | clears the event before waiting |
| `ReadLoop.AsyncReader.WaitForEvent` | rclpy/rclpy/experimental/async_subscription.py:81 | suspends only if the event is not set |
| `ReadLoop.AsyncReader.SetEvent` | rclpy/rclpy/experimental/async_subscription.py:61-63 | sets the event and wakes a suspended reader |
| `ReadLoop.TakenInOrderOnce` | rclpy/rclpy/experimental/async_subscription.py:71-105 | messages are taken in arrival order, each once; with concurrency the reader awaits no callback; without it at most one callback runs, that of the message last taken, and the next is not taken before it has ended |
| `ReadLoop.NoLostWakeup` | rclpy/rclpy/experimental/async_subscription.py:61-81 | a parked reader with messages waiting has its event set, a set scheduled on the loop, or a notification in flight |
| `ReadLoop.ParkedReaderGetsTheMessage` | rclpy/rclpy/experimental/async_service.py:56-87 | and what is pending suffices: without further arrivals the parked reader takes the oldest message |
| `ReadLoop.NextMessageIsTaken` | rclpy/rclpy/experimental/async_subscription.py:61-105 | and so it is wherever the reader is, not started, about to wait or awaiting a callback that then ends: the oldest message waiting is taken without further arrivals |
| `Parameters.RangeAcceptsExactly` | rclpy/rclpy/node.py:1242-1276 | an integer passes a range if and only if it is an end point, or lies strictly inside a whole number of steps from the lower end (anywhere inside for step 0), with the bounds in either order |
| `Parameters.CheckAcceptsExactly` | rclpy/rclpy/node.py:1184-1240 | a descriptor accepts a parameter if and only if it is not read-only where that is checked, does not unset a declared static parameter, and complies in type and range; what the check writes into the descriptor does not change which values comply |
| `Parameters.TypesTellKindsApart` | rclpy/rclpy/parameter.py:48-60 | two values have one type if and only if they are of one kind |
| `ParameterStores.ParameterStore.AddOnSetCallback` | rclpy/rclpy/node.py:1074-1091 | a new callback is asked before all earlier ones |
| `ParameterStores.ParameterStore.AddPreSetCallback` | rclpy/rclpy/node.py:1038-1072 | likewise for callbacks that rewrite the list |
| `ParameterStores.ParameterStore.ApplyDescriptors` | rclpy/rclpy/node.py:1158-1182 | the loop checks in order up to the first refusal and leaves in the descriptors exactly what the checks made so far have written |
| `ParameterStores.ParameterStore.AskCallbacks` | rclpy/rclpy/node.py:886-896 | the loop over all callbacks gives the answer of `Ask`, for which see `EveryCallbackHasAVeto` |
| `ParameterStores.ParameterStore.Commit` | rclpy/rclpy/node.py:907-934 | both dictionaries and the event after the loop are those of committing the list one parameter after the other |
| `ParameterStores.ParameterStore.SetAtomicallyCommon` | rclpy/rclpy/node.py:875-944 | checks everything, then asks, then commits; one event is published if and only if nothing refused |
| `ParameterStores.ParameterStore.CallPreSetCallbacks` | rclpy/rclpy/node.py:1022-1031 | the rewritten list is the concatenation of all callbacks' lists in order (`RewrittenAppend`) |
| `ParameterStores.RewrittenAppend` | rclpy/rclpy/node.py:1022-1031 | one callback more adds its own list, made from the caller's, at the end |
| `ParameterStores.ParameterStore.MentionsUndeclaredName` | rclpy/rclpy/node.py:1016-1020 | true exactly when some non-empty name of the list is not declared |
| `ParameterStores.ParameterStore.SetParametersAtomically` | rclpy/rclpy/node.py:820-838 | an emptied list is refused, undeclared names raise before anything changes, otherwise the atomic set of the rewritten list decides |
| `ParameterStores.ParameterStore.SetParameters` | rclpy/rclpy/node.py:769-774 | the loop performs single atomic sets in order, each with pre-set and on-set callbacks, until one raises; earlier ones stay |
| `ParameterStores.ParameterStore.UndeclareParameter` | rclpy/rclpy/node.py:571-590 | removes value and descriptor together, and refuses unknown and read-only parameters without change |
| `ParameterStores.ParameterStore.SetNewDescriptor` | rclpy/rclpy/node.py:1372-1424 | keeps the value if it complies, else takes the alternative if that does, else changes nothing; refuses unknown, read-only and uninitialised parameters |
| `ParameterStores.ParameterStore.PrepareDeclarations` | rclpy/rclpy/node.py:426-498 | the loop over the declarations gives what `DeclarationsBecomeParameters` describes |
| `ParameterStores.ParameterStore.DeclareParameters` | rclpy/rclpy/node.py:369-569 | declares one after the other until one is refused; nothing is declared if the list is malformed or mentions a declared name |
| `ParameterInvariants.PerformKeeps` | rclpy/rclpy/node.py:571-590 | each single operation keeps the store valid and every read-only parameter of it unchanged, present and read-only |
| `ParameterInvariants.SetKeeps` | rclpy/rclpy/node.py:875-944 | an atomic set keeps both for any list, repeated names included |
| `ParameterInvariants.DeclareEachKeeps` | rclpy/rclpy/node.py:515-569 | declaring keeps the store valid and everything declared before as it was, whatever is refused on the way |
| `ParameterInvariants.SetDescriptorKeeps` | rclpy/rclpy/node.py:1372-1424 | a new descriptor is stored only with a value that obeys it, and never on a read-only parameter |
| `ParameterInvariants.EveryReachableStoreIsValid` | rclpy/rclpy/node.py:1158-1276 | after any sequence of operations from the empty store, whatever the callbacks answer, values and descriptors have the same names and every value is unset or of its static type, and on its range if it has one |
| `ParameterInvariants.ReadOnlyForEver` | rclpy/rclpy/node.py:1209-1213 | no sequence of operations changes or removes a read-only parameter or makes it writable |
| `AtomicSetting.RefusedSetChangesNothing` | rclpy/rclpy/node.py:875-896 | a refused atomic set changes no value and no set of names, publishes nothing, and moves at most the name tag and, for dynamic typing, the type tag of descriptors |
| `AtomicSetting.EventDescribesTheChange` | rclpy/rclpy/node.py:898-939 | the event of an accepted set of distinct names puts each parameter in exactly one of new, changed and deleted, as the old store had it, and replaying it on the old values gives the new values |
| `AtomicSetting.EventSortsEveryEntry` | rclpy/rclpy/node.py:907-934 | for any list the event holds each entry once, in order, sorted by what it does to the store as the entries before it have left it |
| `AtomicSetting.ReplayIsRightExactly` | rclpy/rclpy/node.py:898-939 | for any accepted list, replaying its event on the old values gives the new values if and only if for every name: if the last entry unsets it, all its entries do; if it sets it, the last entry that changed a value it already had, if any, carries the same value |
| `AtomicSetting.ReplayNeedsDistinctNames` | rclpy/rclpy/node.py:907-934 | which does fail for a list with a repeated name |
| `AtomicSetting.FormsAgreeExactly` | rclpy/rclpy/node.py:769-838 | without callbacks, for any list: the exact condition on the store before the call for the atomic form to succeed, and for every single set to succeed; the forms agree on success, values and descriptors (up to tags) if and only if these conditions do |
| `AtomicSetting.AtomicAgreesWithOneByOne` | rclpy/rclpy/node.py:769-838 | they agree on every list in which no name is listed again after it was unset, and for distinct names leave the very same store |
| `AtomicSetting.FormsAgreeEverywhereExactly` | rclpy/rclpy/node.py:769-838 | where undeclared parameters are not allowed, the forms agree on every valid store if and only if the list (of non-empty names) lists no name again after it was unset |
| `AtomicSetting.RepeatedNamesCanDisagree` | rclpy/rclpy/node.py:907-934 | where undeclared parameters are allowed, a name unset and set again can make them disagree as well |
| `AtomicSetting.SetEachStopsAtTheFirstRaise` | rclpy/rclpy/node.py:724-774 | with any callbacks, the one-by-one form makes no attempt after the first parameter that raises, and what was set before stays set |
| `SettingWithCallbacks.EveryCallbackHasAVeto` | rclpy/rclpy/node.py:886-896 | the callbacks accept a list if and only if each of them does; otherwise the answer is that of the first that refuses |
| `SettingWithCallbacks.EveryPreSetCallbackContributes` | rclpy/rclpy/node.py:1022-1031 | the list that is set holds exactly what the pre-set callbacks, each given the caller's list, return |
| `SettingWithCallbacks.SetAnswersExactly` | rclpy/rclpy/node.py:820-944 | for any list, store and callbacks: an undeclared non-empty name raises and an emptied list is refused; otherwise the set is accepted if and only if every entry is permitted by its descriptor and every on-set callback agrees, else the first refusal is the answer; after acceptance each name has the value of its last entry, in every other case all values are the old ones |
| `SettingWithCallbacks.EachIsSetInTurn` | rclpy/rclpy/node.py:769-774 | each step of the one-by-one form is the atomic form, callbacks included, on what the steps before have left |
| `SettingWithCallbacks.AcceptedSetTags` | rclpy/rclpy/node.py:1204-1215 | an accepted set leaves the descriptor of a name it does not unset as it was, but for the name and, if it is dynamic, the type of the last entry |
| `AtomicSetting.CommitAllAt` | rclpy/rclpy/node.py:907-934 | committing a list of distinct names gives each name its own parameter and descriptor, or removes both, wherever it stands in the list |
| `ParameterDeclaring.DeclaringStopsAtTheFirstRefusal` | rclpy/rclpy/node.py:552-569 | for any list: those before the first refused one stay declared with the value and descriptor given (of a repeated name the last), all other names are as before, and there is an error if and only if one was refused |
| `ParameterDeclaring.DeclarationsBecomeParameters` | rclpy/rclpy/node.py:426-498 | each declaration before the first that fails becomes the parameter named by namespace and name, with the override unless ignored, else the value given, else none, and with the descriptor given and the declared type; the error is that of the first that fails, with the exact condition for types, values and messages |
| `ParameterDeclaring.DeclaringSucceedsExactly` | rclpy/rclpy/node.py:552-569 | there is no error if and only if each value obeys its descriptor, no static parameter is left without a value that an earlier entry gave it, and every callback agrees to each; else the error is that of the first for which this fails, about the type if its type is wrong or the first callback to refuse says so, about the value otherwise |
| `ParameterDeclaring.DeclareDoesAsAsked` | rclpy/rclpy/node.py:426-569 | from the declarations to the store: a failing declaration or a declared name raises its error and declares nothing; without error every name holds the value and descriptor that its last declaration asked for, and all other names what they held |
| `ParameterDeclaring.UndeclareUndoesDeclare` | rclpy/rclpy/node.py:571-590 | undeclaring a parameter just declared restores the store, or fails without change if it was declared read-only |
| `ParameterDeclaring.NewDescriptorPrefersTheCurrentValue` | rclpy/rclpy/node.py:1402-1424 | a value that fits the new descriptor is kept whatever the alternative, else the alternative is stored if it fits, else nothing changes; success if and only if one of them fits |
| `ParameterDeclaring.RefusedOperationsSayWhy` | rclpy/rclpy/node.py:571-590 | when undeclaring and when giving a new descriptor, exactly which error is raised for unknown, read-only and uninitialised parameters; what fails changes nothing, and what succeeds touches no other name |
| `ParameterListing.ListedIsWithinDepth` | rclpy/rclpy/node.py:979-996 | the textual condition is the rule on segments: at most `depth` of them, counted after one of the prefixes if there are any, any number for depth 0 |
| `ParameterListing.ListingGrowsWithDepth` | rclpy/rclpy/node.py:979-996 | a greater depth lists no fewer names, and depth 0 lists them all |
| `ParameterListing.ListParameters` | rclpy/rclpy/node.py:946-1004 | exactly the names that meet the rule, each once, and exactly their immediate parents, each once; an error for negative depth |
| `DottedNames.ParentDropsLastSegment` | rclpy/rclpy/node.py:998-1000 | the text before the last dot is the name without its last segment |
| `ParameterFiles.Unpack` | rclpy/rclpy/parameter.py:545-567 | the recursive loop computes the flattening, for any dictionary |
| `ParameterFiles.NamesAreJoinedPaths` | rclpy/rclpy/parameter.py:554-567 | for every dictionary, dots in its keys or not, the names produced are exactly the joined paths of its values, and each carries the value of a path that joins to it |
| `ParameterFiles.FlattenedNamesArePaths` | rclpy/rclpy/parameter.py:554-567 | with dot-free keys a name is produced if and only if splitting it at its dots after the namespace gives the path of a value, and its message carries that name and that value |
| `DottedNames.SplitUndoesJoinExactly` | rclpy/rclpy/parameter.py:554-567 | splitting a joined path at its dots gives the path back if and only if its keys contain none |
| `ParameterFiles.EveryValueHasItsOwnName` | rclpy/rclpy/parameter.py:554-567 | if no key extends another key of the same dictionary by a dot, every value appears under its joined path, and values at different paths under different names |
| `ParameterFiles.NamespaceOnlyPrefixes` | rclpy/rclpy/parameter.py:555-566 | for every dictionary a namespace only prefixes every name, and every message carries the name it is entered under |
| `ParameterFiles.DottedKeysCollide` | rclpy/rclpy/parameter.py:554-567 | otherwise two values can collapse into one name |
| `TimeSources.TimeSource.SetActive` | rclpy/rclpy/time_source.py:51-74 | flag and all attached clocks agree afterwards; the clock topic is subscribed or dropped only on a change of the flag |
| `TimeSources.TimeSource.AttachClock` | rclpy/rclpy/time_source.py:110-116 | accepts exactly clocks on ROS time, which then carry the current flag and last time |
| `TimeSources.TimeSource.ClockCallback` | rclpy/rclpy/time_source.py:118-123 | every attached clock carries the new time |
| `TimeSources.TimeSource.OnParameterEvent` | rclpy/rclpy/time_source.py:125-143 | the first entry for use_sim_time decides: a boolean is followed, anything else refused with the flag unchanged |
| `TimeSources.TimeSource.AttachNode` | rclpy/rclpy/time_source.py:76-101 | the node gets use_sim_time if it lacks it, with the errors of declaring and reading it; a boolean is followed; the callback is registered once more, unless an error came first; attaching with the flag already set does not subscribe again |
| `TimeSources.AttachingDeclaresFalseByDefault` | rclpy/rclpy/time_source.py:83-98 | a node without use_sim_time gets it with the override or else false, without error if and only if that is a boolean and every callback accepts it; a node that has it keeps its store |
| `TimeSources.LastInLine` | rclpy/rclpy/time_source.py:101 | registered first and therefore asked last, the time source acts only if nobody else has refused |
| `TimeSources.TimeSourceIsOneMoreCallback` | rclpy/rclpy/node.py:886-896 | a set on a node with a time source has the answer and the store of a set with one callback more, that of the time source, asked last |
| `TimeSources.TimeSourceStaysLast` | rclpy/rclpy/node.py:1091 | whatever is registered later, the time source is asked last |
| `TimeSources.SetKeepsAgreementExactly` | rclpy/rclpy/time_source.py:125-143 | for any list and wherever the time source stands among the callbacks: an accepted set keeps flag and parameter equal if and only if its first and last entries for use_sim_time carry the same value; one not accepted, if and only if the time source had not switched the flag before another refused |
| `TimeSources.SetKeepsAgreement` | rclpy/rclpy/time_source.py:125-143 | with the time source last, a set that does not succeed changes neither flag nor values |
| `TimeSources.AgreementForEver` | rclpy/rclpy/time_source.py:125-143 | through any sequence of sets, with any callbacks registered and any answers, ros_time_is_active equals use_sim_time at every point if and only if no accepted list starts and ends with different values for it |
| `TimeSources.DistinctIsSteady` | rclpy/rclpy/time_source.py:125-143 | which lists of distinct names never do |
| `TimeSources.RepeatedEntriesBreakAgreement` | rclpy/rclpy/time_source.py:129-141 | and an accepted list can |
| `TimeSources.VetoAfterTimeSourceBreaksAgreement` | rclpy/rclpy/node.py:886-896 | a veto after the time source has switched the flag does happen when another callback is asked after it |
| `TimeSources.OtherOperationsBypassTheTimeSource` | rclpy/rclpy/node.py:571-590 | undeclaring a parameter or giving it a new descriptor asks nobody: exactly when each of them ends the agreement |
| `ActionClients.ActionClient.SendGoalAsync` | rclpy/rclpy/action/client.py:582-606 | a conflicting sequence number raises and changes nothing; otherwise the new future is pending under its number with the goal's identifier, and known to the executor |
| `ActionClients.ActionClient.CancelGoalAsync` | rclpy/rclpy/action/client.py:633-672 | the same for a cancel request |
| `ActionClients.ActionClient.GetResultAsync` | rclpy/rclpy/action/client.py:699-728 | the same for a result request |
| `ActionClients.ActionClient.FindRequest` | rclpy/rclpy/action/client.py:306-315 | the search finds an entry holding the future if there is one |
| `ActionClients.ActionClient.RemovePendingGoalRequest` | rclpy/rclpy/action/client.py:317-323 | takes out exactly the request the future was made for, its goal identifier, and the future from the executor's list; a future no longer pending changes nothing |
| `ActionClients.ActionClient.RemovePendingCancelRequest` | rclpy/rclpy/action/client.py:325-326 | the same for a cancel request |
| `ActionClients.ActionClient.RemovePendingResultRequest` | rclpy/rclpy/action/client.py:328-336 | the same for a result request, with the feedback callback of its goal |
| `ActionClients.ActionClient.TakeGoalResponse` | rclpy/rclpy/action/client.py:409-435 | completes the future pending under that number; unknown numbers are ignored; a second acceptance of one identifier raises before the future is completed |
| `ActionClients.ActionClient.TakeCancelResponse` | rclpy/rclpy/action/client.py:437-445 | completes the future pending under that number or ignores the response |
| `ActionClients.ActionClient.TakeResultResponse` | rclpy/rclpy/action/client.py:447-455 | the same for a result response |
| `ActionClients.ResponsesReachTheirOwnRequest` | rclpy/rclpy/action/client.py:306-455 | in every run goal and result requests and their goal identifiers have the same sequence numbers, the executor's list holds exactly the pending futures, each once, so no lookup or removal fails; and a response completes only the future made for its own request |
| `ActionClients.RemovalIsExact` | rclpy/rclpy/action/client.py:306-336 | the done-callback of a future takes out the request it is pending for, its goal identifier, the future and, for a result, the feedback callback of its goal, and nothing else; if there is none it does nothing |
| `ActionClients.AcceptanceIsForItsGoal` | rclpy/rclpy/action/client.py:409-435 | the acceptance that answers a goal request is taken for the goal it was sent for, and completes the future made for it |
| `ActionClients.AcceptedRequestLeavesNoTrace` | rclpy/rclpy/action/client.py:317-323 | when that future calls back, all that was pending is as before the request |
| `ActionClients.ResultIsForItsGoal` | rclpy/rclpy/action/client.py:328-336 | the same for a result request, whose removal also ends the feedback of the goal it was sent for |
| `ActionServers.ActionServer.AcceptGoal` | rclpy/rclpy/action/server.py:408-423 | an accepted goal gets a fresh pending future, entered in both dictionaries and announced to the executor; if rcl reuses a UUID that the server still has, the future overwritten stays announced and is never withdrawn |
| `ActionServers.ActionServer.SetResult` | rclpy/rclpy/action/server.py:192-200 | completes the result future of a tracked goal, whatever its status; raises for a goal that has expired |
| `ActionServers.ActionServer.ExecuteGetResultRequest` | rclpy/rclpy/action/server.py:529-553 | unknown goals are answered at once; for a tracked goal a callback is registered on its future, or due at once if the result is there |
| `ActionServers.ActionServer.ExecuteExpireGoals` | rclpy/rclpy/action/server.py:555-561 | exactly the goals named are forgotten, with their futures, if all are tracked and named once; all others keep their futures |
| `ActionServers.RequestsAnsweredAtMostOnce` | rclpy/rclpy/action/server.py:192-200 | in every run, with results set repeatedly and racing with requests, no get-result request is answered twice, per goal and over all goals and UNKNOWN answers together |
| `ActionServers.SettledGoalsAnswerEveryRequest` | rclpy/rclpy/action/server.py:550-576 | once the result is set, no call on the future is in flight and the queued callbacks have run, every request about the goal has been answered exactly once |
| `ActionServers.AnswerableExactly` | rclpy/rclpy/action/server.py:539-576 | in every reachable state a goal has a continuation in which all its requests are answered if and only if its result is set, or it is still tracked, or nobody has asked |
| `ActionServers.AbandonedGoalsNeverAnswer` | rclpy/rclpy/action/server.py:555-561 | a goal that expires before its result is set never answers the requests registered on it |
| `ActionServers.GoalsCanBeAbandoned` | rclpy/rclpy/action/server.py:529-561 | and that state is reachable with a request outstanding |

Where the code and its documentation differ, the model follows the code. The documentation of
`set_parameters_atomically` says that a NOT_SET value implicitly undeclares a parameter; the code
refuses this for statically typed ones (rclpy/rclpy/node.py:1216-1221). The documentation of
`_check_undeclared_parameters` promises an exception for every undeclared name; the empty name goes
unnoticed (rclpy/rclpy/node.py:1016-1020).

## Left out

- SchedulingProgress.RunsLaterExactly: that a task can run, with somebody completing what it awaits; not that it must, which is up to the scheduling of threads.
- Scheduling.EveryPendingTaskIsInOnePlace: the single-threaded executor only; with a thread pool a resumption can be ignored, TaskCalls.CallsAreIgnoredExactlyOnCollision says when. Cancelling a task is modelled as its status change; that this also closes its coroutine is not.
- Shutdown.NobodyUsesDestroyedGuards: does not cover `spin_once`, for which Shutdown.WaitsLaterExactlyIfPausedAtTask gives the exact condition.
- AtomicSetting.EventDescribesTheChange: for distinct names, where each entry is sorted as the old store had it; AtomicSetting.EventSortsEveryEntry and AtomicSetting.ReplayIsRightExactly are for every list.
- TimeSources.AgreementForEver: covers sets only; TimeSources.OtherOperationsBypassTheTimeSource says exactly when other operations end the agreement.
- ParameterFiles.FlattenedNamesArePaths: for dot-free keys, without which names cannot be split back; ParameterFiles.NamesAreJoinedPaths is for every dictionary.
- ParameterListing.ListParameters: not the order of the result, which is that of the dictionary.
- ActionServers.SettledGoalsAnswerEveryRequest: destroying the server cancels the result futures, whose callbacks then send nothing; the model ends before that. A goal's own state machine is in rcl.
- ActionClients.ResponsesReachTheirOwnRequest: not the delivery of feedback and its content filter; garbage collection of goal handles is the event that drops one.
- Handlers.OneUntakenHandlerPerEntity: a handler whose message cannot be taken because its entity was destroyed counts as taken; one closed by the garbage collector ends like any other.
- Time: how long a wait or a timeout lasts is not modelled, only that it may end.
- Floating-point ranges (rclpy/rclpy/node.py:1278-1321): the comparison with its rounding is a parameter `DoubleTest` of the model; doubles are reals that are only compared for identity.
- Post-set callbacks, exceptions for arguments of the wrong Python type, the wording of refusals, and the parameter services: they change nothing in the store.
- The loop over goals in the cancel request (rclpy/rclpy/action/server.py:496-519), which removes from the list it iterates over.
- The C++ layer, wait sets, middleware and quality of service (a queue that drops messages): which entities are ready, which numbers come back and which messages arrive is arbitrary.
- Context, rates, timers, clients of plain services, parameter event handlers, lifecycle nodes, YAML parsing and logging: they would add only easy members.
