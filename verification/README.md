# Pitú in Dafny

Pitú is a harness that moves chat messages to containers, one warm container per chat, and moves what
the agents in the containers write back to Telegram, to the scheduler and to the queue. This project
models its concurrent protocols and its durable state, and proves what they guarantee over every run.

Each protocol is a transition system: one event is one atomic section of a goroutine (a region under a
mutex, one channel or file system operation, one call of foreign code), `Step` says when it is possible
and what it does, and `Exec` runs a list of events. Results about runs are lemmas over `Exec`. Where the
Go code updates an object in place there is also a class with the same fields whose methods are the
stretches of code between two atomic sections, or whole functions; `Queue` and `Manager` carry a ghost
history of protocol events, and `Valid` says that their fields are what the protocol makes of it, so the
results about runs hold of the objects.

| files | part of Pitú |
|---|---|
| QueueProtocol, QueueOffers, QueueShutdown, Queue | the per-chat dispatch queue, its semaphore and its shutdown |
| PoolProtocol, PoolResults, Manager | the warm container pool: double-checked start, TTL timers, StopAll |
| PoolPlacement, PoolRuns | where running containers are, how many of a chat run, and runs with two |
| PoolShutdown, PoolStopSafety | StopAll by itself: what it can leave running, and when it is sure to leave nothing |
| Sessions | queue, pool, signal and main goroutine together: no overlapping runs, session continuity |
| DrainedClosures, PendingCalls, ShutdownSafety, ProcessExit | the whole shutdown: closures drained after StopAll, calls still inside Enqueue, dispatches during it, the end of the process |
| TaskRegistry, TaskRuns, TaskRows, TaskDelivery, TaskHandler | task rows, scheduler entries, cron entries, snapshots; crash and restart |
| AtomicFile | publishing by temp file and rename |
| CapabilityCalls, McpTools | request and response with timeout; one message per pitu-mcp process |
| IpcPaths, IpcRouter, IpcDelivery, IpcSpawns, Watcher | directory registration, file delivery, routing, spawn trees |
| CapabilityList, Strings | the capability list from the store to the registered tools |
| RateLimit, Poller | message ingress |
| SkillDiscovery, SkillMerge | the runtime skills directory |
| Prelude | Option, Result, sums over sequences |

## Where the code and its documentation disagree

The model follows the code.

- `docs/ARCHITECTURE.md` and the comment on `TaskFile.Schedule` allow RFC3339 schedules; the scheduler's
  parser takes five-field cron and descriptors only. The parser is a parameter here, so nothing proved bears
  on this.
- `Stop` is said to drain in-flight tasks and to shut down all workers. It can make the program panic
  (`EnqueueOvertakenByStop`): exactly when some `Enqueue` stands between unlock and select and its channel is
  closed or still to be closed (`PanicExactly`). It can wait forever (`StopHangs`), even with nobody inside
  `Enqueue` when it unlocks: one later `Enqueue` for a chat without a channel is enough (`NewChatHangsStop`).
  While Stop waits it can still return exactly when every channel is closed (`StopReturnsExactly`), and what
  it has run when it returns is `StopCompletes`.
- `docs/SECURITY.md` says that containers are not left running after the harness exits. They can be, and each
  of these ways has a run: StopAll during a start (`StopAllMissesStart`); a container whose entry the re-armed
  timer of an older one deleted (`StopAllMissesRobbed`); a waiting closure that dispatches while StopAll runs
  (`ClosureDuringStopAll`) or is drained afterwards, since main.go stops the queue after StopAll
  (`WaitingClosureStarts`); and the end of the process, since the poll loop, the last statement of main.go,
  returns as soon as the context is cancelled, whether or not StopAll has run (`MainExitsFirst`); a poll
  handler inside `Enqueue` does not hold it back, since its message is accepted (`PollerSendsAndMainExits`).
  `ShutdownLeavesNothingExactly` says from which states the shutdown is sure to leave nothing running when
  StopAll returns and later, with dispatches, workers and calls inside `Enqueue` going on. Nothing can outlive
  the process exactly when the state is safe in that sense and nothing runs yet (`NothingOutlivesExactly`).
  `OnlyTheseAreLeft` says, over every run, which containers can run when StopAll returns, and
  `StopAllLeavesNothingExactly` is about StopAll by itself.
- "One warm container per chat": two containers of one chat can run (`TwoContainersOfOneChat`), because a
  re-armed timer of an old handle deletes a newer entry: `stopContainer` deletes by chat. At most one runs
  while no entry of the chat was deleted by the stop of another container and no podman stop failed
  (`AtMostOneOfKey`), and wherever a running container has lost its entry the next dispatch makes it two
  (`RobbedThenTwo`).
- The scheduler and the database are said to agree. For fresh IDs they do if and only if no row is missing,
  that is, left out by a failing query at startup, whose error main.go ignores, and not settled since
  (`RegistryAgreement`). Creating an existing ID breaks the agreement exactly in the cases that
  `CreateAgreesExactly` names, because the upsert keeps `paused` and `chat_id` and `Add` keeps the old entry. A
  pause file from another chat leaves a stale snapshot (`PauseSnapshotsExactly`).
- A capability name with a comma enables other capabilities (`CommaNameEnables`); `RoundTripExactly` says
  which names survive.

## Model

| member | source | states |
|---|---|---|
| QueueProtocol.FifoRefinement | internal/queue/queue.go:26-49 | in every reachable state a chat's finished closures, the one its worker holds and its buffer are exactly the closures accepted for the chat, in order of acceptance; the begun ones are the finished and the running one |
| QueueProtocol.StartsFollowAcceptance | internal/queue/queue.go:24-49 | closures of a chat start in the order they were accepted, none twice, at most one unfinished |
| QueueProtocol.SlotsBoundRunning | internal/queue/queue.go:16-22 | the semaphore count is the number of workers between acquire and release and never exceeds maxConcurrent, for any number of chats |
| QueueProtocol.ChannelsStay | internal/queue/queue.go:27-35 | a chat keeps one channel and worker for the whole run and shares it with no other chat |
| QueueProtocol.ExecInv | internal/queue/queue.go:26-62 | chats and channels in bijection, semaphore and wait group counts, channels closed once and left only when closed and empty, in every reachable state |
| QueueOffers.NothingIsLost | internal/queue/queue.go:26-40 | until Stop is called, the closures handed to Enqueue for a chat number the accepted ones plus the calls that have not returned |
| QueueOffers.ReturnsBySending | internal/queue/queue.go:36-39 | in every run a call returns by sending the closure it was given for the chat it was given, or after Stop closed done |
| QueueOffers.CallBringsItsClosure | internal/queue/queue.go:26-39 | what a call that has not returned will send is what it was called with |
| QueueOffers.BuffersAreBounded | internal/queue/queue.go:30 | no channel ever holds more than 256 closures |
| QueueOffers.SelectExactly | internal/queue/queue.go:36-39 | in every reachable state: a call can send exactly when its channel is open and has room, waits exactly when it is full and Stop was not called, gives up only after Stop was called, and panics exactly on a closed channel |
| QueueShutdown.PanicExactly | internal/queue/queue.go:26-58 | the calls now inside Enqueue can still make the program panic if and only if one stands between unlock and select with its channel closed or Stop not done closing; before Stop is called, any call between unlock and select |
| QueueShutdown.EnqueueOvertakenByStop | internal/queue/queue.go:35-57 | a run of five events in which Stop makes an Enqueue panic |
| QueueShutdown.UnlockDrains | internal/queue/queue.go:55-60 | when Stop unlocks, every channel is closed, whoever is inside Enqueue |
| QueueShutdown.StopHangs | internal/queue/queue.go:26-60 | a run of four events, with nobody inside Enqueue when Stop unlocks, after which Stop never returns |
| QueueShutdown.NewChatHangsStop | internal/queue/queue.go:27-60 | an Enqueue for a chat without a channel, made while Stop waits, keeps it waiting in every continuation |
| QueueShutdown.StopReturnsExactly | internal/queue/queue.go:51-62 | while Stop waits it can still return if and only if every channel is closed, in every reachable state and with any further calls of Enqueue |
| QueueShutdown.DrainStep | internal/queue/queue.go:42-60 | with every channel closed, no event but an Enqueue for a new chat accepts or opens anything, and each move of a worker or of Stop lowers a measure |
| QueueShutdown.DrainProgress | internal/queue/queue.go:42-60 | while Stop waits for closed channels, some move of a worker or of Stop is possible (with at least one slot) |
| QueueShutdown.StopCompletes | internal/queue/queue.go:51-62 | whatever is enqueued after Stop has unlocked: when it has returned, the worker of each chat known by then is gone and ran exactly the closures accepted before, once and in order; while nothing is enqueued for a new chat, moves are bounded and one more is possible until Stop returns or the program panics |
| Queue.Queue.Lookup | internal/queue/queue.go:26-35 | finds or makes the channel of the chat, as one protocol event |
| Queue.Queue.Select | internal/queue/queue.go:36-39 | sends when there is room, drops when done is closed, with Go's free choice when both are possible |
| Queue.Queue.RunNext | internal/queue/queue.go:44-48 | one turn of the loop finishes the first buffered closure, removes it and no other, and gives the slot back |
| Queue.Queue.Worker | internal/queue/queue.go:42-49 | the range over a closed channel runs its whole buffer in order, gives the slots back and exits |
| Queue.Queue.CloseOne | internal/queue/queue.go:57 | closes one channel, never for the second time |
| Queue.Queue.SignalDone | internal/queue/queue.go:54 | closing done wakes every parked Enqueue and no other |
| Queue.Queue.CloseChannels | internal/queue/queue.go:56-59 | closes every channel and changes nothing else in it |
| Queue.Queue.Wait | internal/queue/queue.go:60 | when the wait group is empty, every worker has exited and every buffer is empty |
| Queue.Queue.Stop | internal/queue/queue.go:51-62 | with idle workers and nobody else moving: Stop returns, every worker has exited, and each has finished exactly what was in its channel, in order |
| PoolProtocol.ExecInv | internal/container/manager.go:91-163 | only the lock holder is inside a start, sub-agent IDs are unique, and a container is only started for a key without an entry |
| PoolProtocol.OneStarter | internal/container/manager.go:96-103 | in every reachable state at most one thread is about to start, or starts, a container for a key |
| PoolResults.PoolConservation | internal/container/manager.go:91-163 | for every interleaving of dispatches, timers, resets, StopAll and spawns: starts of a key are its effective deletions, plus its entry, plus the one mid-start |
| PoolResults.ReturnedHandleWasPooled | internal/container/manager.go:91-104 | a handle returned by ensureContainer was the chat's pool entry at some moment of the call |
| PoolResults.LockedCallMissed | internal/container/manager.go:91-98 | a dispatch that waits for startMu or holds it found no entry at its first load: a warm chat takes no lock |
| PoolResults.NoContainerWithoutStopper | internal/container/manager.go:158-162 | every running container is held by its starter, has its own timer armed, has a pending stop for that same container, or podman stop failed on it |
| PoolResults.HandleBelongsToKey | internal/container/manager.go:158-162 | the container a caller works with, and every pool entry, was started for that chat or sub-agent |
| PoolPlacement.RunningIsPlaced | internal/container/manager.go:253-260 | in every reachable state a running container is the pool entry of its key, or mid-start, or lost its entry to the stop of another container, or resisted podman stop |
| PoolPlacement.AtMostOneOfKey | internal/container/manager.go:91-104 | at most one container of a chat or sub-agent runs while no entry of the key was deleted by the stop of another container and no podman stop of its containers failed |
| PoolRuns.TwoContainersOfOneChat | internal/container/manager.go:76-89 | a run in which a re-armed timer deletes a newer entry and the next dispatch makes two running containers of one chat |
| PoolRuns.RobbedThenTwo | internal/container/manager.go:96-103 | wherever a running container of a chat has lost its entry, the next dispatch makes it two |
| PoolRuns.StopAllMissesRobbed | internal/container/manager.go:253-284 | a run in which StopAll returns with that container running and nothing else going on |
| PoolRuns.StopAllMissesStart | internal/container/manager.go:145-162 | a run in which StopAll returns during a start, whose container runs |
| PoolShutdown.OnlyTheseAreLeft | internal/container/manager.go:268-284 | for every run: a container that runs when StopAll returns was mid-start when it began, or started later, or lost its entry to the stop of another container, or resisted podman stop |
| PoolShutdown.VisitedOnce | internal/container/manager.go:270-283 | over every run StopAll visits no key twice, whatever is stored and deleted meanwhile |
| PoolStopSafety.StopAllLeavesNothingExactly | internal/container/manager.go:268-284 | StopAll by itself, without dispatches or spawns meanwhile and with its podman stops working: it is sure to leave nothing running if and only if every running container is in the pool, no stop of another container of its key is pending or can come from a timer, no failed stop of its own is about to delete the entry, and no call may still start one |
| PoolResults.SessionIffSucceeded | internal/container/manager.go:236-251 | a handle has a session exactly when an earlier OpenCode run on it succeeded |
| Manager.Manager.FastPath | internal/container/manager.go:92-95 | the load without the lock |
| Manager.Manager.StartContainer | internal/container/manager.go:106-164 | run, register, arm, store, as protocol events: the pool, the timers and the running containers afterwards, for success and error |
| Manager.Manager.SlowPath | internal/container/manager.go:96-103 | returns the entry stored meanwhile, or the new container with its timer armed, or the error; no other thread, entry, timer or container changes |
| Manager.Manager.ResetTimer | internal/container/manager.go:82 | arms the handle's timer whether or not it has fired |
| Manager.Manager.BeginExec | internal/container/manager.go:236-242 | the run continues exactly when the handle has a session |
| Manager.Manager.EndExec | internal/container/manager.go:246-250 | only a successful run gives the handle a session |
| Manager.Manager.DeleteEntry | internal/container/manager.go:255 | deletes by key, whoever's entry it is |
| Manager.Manager.Expire | internal/container/manager.go:253-260 | a TTL callback stops its own container and deletes the entry of the key |
| Manager.Manager.StopEntry | internal/container/manager.go:270-276 | StopAll's callback for one entry |
| Manager.Manager.StopAll | internal/container/manager.go:268-284 | with nothing else moving, the two ranges end with empty pools, no pooled container with an armed timer, and running only those on which podman stop failed |
| Sessions.Projections | cmd/pitu/main.go:294-298 | a run of queue and pool together is a run of each, so the results above carry over |
| Sessions.RunsOfAChatNeverOverlap | cmd/pitu/main.go:117-119 | two dispatches of a chat are never in progress at the same time |
| Sessions.SessionContinuity | internal/container/manager.go:334-336 | a run carries the continue flag exactly when an earlier run on the same handle succeeded, and all earlier runs on it are over |
| Sessions.ShutdownInOrder | cmd/pitu/main.go:247-260 | over every run StopAll comes after the cancellation, Stop after StopAll, and main leaves its poll loop only after the cancellation and when its handler, which enqueues one message at a time, is outside Enqueue |
| Sessions.ExitIsFinal | cmd/pitu/main.go:260 | after the end of the process nothing happens but that containers end by themselves |
| DrainedClosures.DrainStarts | cmd/pitu/main.go:115-119 | after a StopAll that left nothing, the workers can come to any waiting closure that dispatches with the background context, and a container is started |
| DrainedClosures.WaitingClosureStarts | cmd/pitu/main.go:115-119 | a run in which one scheduler message waits, StopAll finds nothing, and a container is started afterwards |
| PendingCalls.SendCall | internal/queue/queue.go:26-49 | while the queue is not stopped, dispatches and workers can go on until any call inside Enqueue sends, however full its channel is, with no container started or stopped |
| ShutdownSafety.ShutdownLeavesNothingExactly | cmd/pitu/main.go:247-253 | from any state with the context cancelled and StopAll not begun, with dispatches, workers and calls inside Enqueue going on and the poll handler enqueueing more: nothing runs when StopAll returns or later, in every continuation, if and only if every running container is safely in the pool, no dispatch with the background context may still start one, and no closure that was accepted, or that a call inside Enqueue brings, will dispatch with that context |
| ProcessExit.NothingOutlivesExactly | cmd/pitu/main.go:247-260 | from any such state with main in its poll loop: nothing runs when the process has ended, in every continuation, if and only if that condition holds and nothing runs yet |
| ProcessExit.ClosureDuringStopAll | cmd/pitu/main.go:115-119 | a run in which a waiting closure dispatches while StopAll runs, from a state that is safe for StopAll by itself, and its container is left |
| ProcessExit.MainExitsFirst | internal/telegram/poller.go:51-57 | a run in which main returns before StopAll is called, from a state that is safe for it, and a warm container outlives the process |
| ProcessExit.PollerSendsAndMainExits | internal/queue/queue.go:36-39 | a run in which the poll handler, inside Enqueue when the signal arrives, has its message accepted, main returns before StopAll is called, and a warm container outlives the process |
| TaskRegistry.CompensationUnreachable | cmd/pitu/main.go:144-165 | after Validate and SaveTask, Add cannot fail, so the compensating delete never runs |
| TaskRegistry.HandleInv | cmd/pitu/main.go:141-179 | one task file, with any failures, keeps entries and cron in bijection and settles or keeps which unpaused rows have no entry |
| TaskRegistry.UpsertKeeps | internal/store/tasks.go:12-19 | saving keeps the chat and the paused flag of an existing row and every other row |
| TaskRegistry.CreateExactly | cmd/pitu/main.go:143-168 | a create file, field by field: what its row holds afterwards for a new and for an existing ID, what the scheduler runs, whose snapshot is rewritten, and that nothing changes when the schedule does not parse or the save fails |
| TaskRegistry.PauseExactly | cmd/pitu/main.go:169-178 | a pause file, field by field: the row is as it was but paused, the job is gone, and no other row, job or snapshot changes |
| TaskRegistry.ListsExactly | cmd/pitu/snapshot.go:22-62 | a snapshot's content is the rows of the chat, paused or not, and nothing else |
| TaskRegistry.AddAddsOneJob | internal/scheduler/scheduler.go:33-49 | Add fails exactly for an unpaused, unknown task with a bad schedule; otherwise such a task gets its job and no other job changes |
| TaskRegistry.PauseRemovesOneJob | internal/scheduler/scheduler.go:51-57 | Pause takes away the job of the task and its cron entry, and no other |
| TaskRegistry.CreateAgreesExactly | internal/store/tasks.go:12-19 | a saved create keeps rows and scheduler in agreement if and only if the ID is new or its row is unpaused with the same schedule and prompt |
| TaskRegistry.RestartAgreesExactly | cmd/pitu/main.go:222-228 | the rebuilt scheduler agrees with the rows if and only if the startup query was complete |
| TaskRegistry.CleanRestartIsIdentity | cmd/pitu/main.go:222-228 | a clean restart gives every ID the same schedule, chat and prompt |
| TaskRegistry.RestartSnapshotsExactly | cmd/pitu/main.go:230-239 | after a restart a chat's snapshot is current if and only if it was rewritten, for a loaded row, or was current already |
| TaskRegistry.CrashRecovers | cmd/pitu/main.go:141-179 | from a crash after any effect of the handler, startup gives exactly the unpaused rows and current snapshots for their chats |
| TaskRuns.RegistryInvariant | internal/scheduler/scheduler.go:33-64 | over every run of files, crashes and restarts, with any failures, of the startup query too: entry IDs and cron entries in bijection, only rows have entries, and an unpaused row has one exactly when it is not missing |
| TaskRuns.RegistryAgreement | internal/scheduler/scheduler.go:33-57 | over every such run every unpaused row has an entry if and only if no row is missing; with fresh IDs the scheduler then holds exactly the unpaused rows, with schedule, chat and prompt, and only then |
| TaskRuns.RestartMisses | cmd/pitu/main.go:222-228 | after a startup exactly the rows its query did not return are missing, none if and only if it was complete |
| TaskRuns.MissingShrinks | cmd/pitu/main.go:141-179 | files handled later only shrink what is missing |
| TaskRuns.PauseSnapshotsExactly | cmd/pitu/main.go:169-178 | a pause keeps all snapshots current if and only if it names the row's chat, or there is nothing to pause |
| TaskRuns.SnapshotsStayCurrent | cmd/pitu/snapshot.go:22-62 | files about a chat's own tasks, and restarts, keep every snapshot equal to the chat's rows |
| TaskRows.RowsFollowFiles | internal/store/tasks.go:12-37 | over every run, with any IDs, failures, crashes and restarts: the rows are those of the saved create files; each has the chat of the first save of its ID, name, schedule and prompt of the last, and is paused exactly when a pause came after the first |
| TaskRows.FilesAreRun | cmd/pitu/main.go:141-179 | over every run with fresh IDs: a saved create file is its row, paused exactly when a pause came later, and unless it is paused or missing the scheduler runs its prompt for its chat on its schedule |
| TaskDelivery.FilesActForTheirDirectory | cmd/pitu/main.go:141-179 | from the bytes of a file in a tasks directory to the registry: a create makes a task of the directory's chat whatever the file says, a pause only pauses, any other action does nothing, and no row changes hands |
| TaskHandler.Harness.SaveTask | internal/store/tasks.go:12-19 | an existing row keeps its chat and paused flag and takes name, schedule and prompt, a new row is the task, and no other row changes; nothing changes on an error |
| TaskHandler.Harness.QueryTasks | internal/store/tasks.go:39-56 | the row loop returns exactly the rows of the WHERE clause, each once; none when query or scan fails, some when iteration breaks off |
| TaskHandler.Harness.WriteTasksSnapshot | cmd/pitu/snapshot.go:22-62 | the snapshot becomes the chat's rows, or stays as it was when reading or writing fails |
| TaskHandler.Harness.OnTask | cmd/pitu/main.go:141-179 | the handler, with its early returns, goes through exactly the specified states, one after each effect, and ends in the last; what these are in terms of the file is CreateExactly and PauseExactly |
| TaskHandler.Harness.Startup | cmd/pitu/main.go:222-239 | the startup loops rebuild scheduler and snapshots from what the query returned, whether or not it failed |
| AtomicFile.ReadersSeeWholeFiles | internal/ipc/capability.go:56-79 | at every moment of a publication, also after a crash or an error, a reader finds the old file or the whole new one and every other file untouched |
| AtomicFile.Directory.Publish | cmd/pitu-mcp/tools.go:90-120 | create, write, close, rename, with cleanup on each error: the states a reader can see and the final state |
| CapabilityCalls.Correlation | cmd/pitu/main.go:308-325 | with any number of concurrent calls, a call that returns has what it asked for when it was issued: noop the echo of its own message or of none, any other capability the code capability_disabled; none reads half a response |
| CapabilityCalls.CallCanReturn | cmd/pitu-mcp/dispatch.go:18-60 | whatever else goes on, a call that publishes its request can come to return, with that outcome and its response file removed |
| CapabilityCalls.NextMoves | cmd/pitu-mcp/dispatch.go:33-60 | what a call can do next in every reachable state: publish or fail to, time out at any moment of its wait, read its response exactly when that is there, return when it has read one |
| CapabilityCalls.ReadIsReturned | cmd/pitu-mcp/dispatch.go:45-57 | a response that was read is the one asked for, and the call returns it |
| CapabilityCalls.ResponsesExactly | internal/ipc/capability.go:56-79 | a response file is there exactly when a goroutine put it in place and its call has not consumed it since |
| CapabilityCalls.RequestsExactly | cmd/pitu-mcp/dispatch.go:26-35 | a request file is there exactly when a call of its chat published it and it was not removed since |
| CapabilityCalls.JobsAccounted | cmd/pitu/main.go:308-325 | each routed request has one goroutine until that has put its response in place or given up |
| CapabilityCalls.ConsumedExactly | cmd/pitu-mcp/dispatch.go:41-56 | a response is consumed once by a call that returned and never otherwise, in particular not after a timeout |
| CapabilityCalls.CallsAccounted | cmd/pitu-mcp/dispatch.go:18-60 | issued calls are the returned, timed out and failed ones plus those in flight |
| McpTools.OnlyTheFirstIsSent | cmd/pitu-mcp/tools.go:20-44 | of all sendMessage calls of a process, interleaved in any way, at most one publishes: the first, if its publication works |
| McpTools.ToolHandlers.HandleSendMessage | cmd/pitu-mcp/tools.go:29-44 | rejected after the first call; a file appears exactly when the call reports success |
| McpTools.ToolHandlers.SendAll | cmd/pitu-mcp/tools.go:29-44 | a whole turn publishes at most its first message |
| McpTools.AwaitResponse | cmd/pitu-mcp/dispatch.go:37-59 | the first select that decides fixes the answer: a timeout, or the response, which is then removed: unreadable, refused with its error and code when it has an error, and otherwise its result |
| McpTools.DispatchCapability | cmd/pitu-mcp/dispatch.go:18-60 | a failed publication ends the call with the directory unchanged; otherwise the request is there and the first deciding select fixes the answer in the same way |
| IpcPaths.DirAndBase | internal/ipc/watcher.go:86-90 | the directory and subdirectory that Watch derives from an event name are those the file was put into |
| IpcPaths.RootsSpelledOut | internal/container/manager.go:106-168 | the host paths of the IPC directories of main agents and sub-agents |
| IpcPaths.DirectoriesAreDistinct | internal/container/manager.go:167-168 | no two agents, main or sub, share an IPC subdirectory: the path determines chat, agent and subdirectory |
| IpcRouter.PayloadIdentityIsIgnored | internal/ipc/router.go:52-98 | files that differ only in the chat, role or sub-agent they claim lead to the same handler call, with the directory's chat |
| IpcRouter.RoutedExactly | internal/ipc/router.go:39-102 | a file is handed over exactly when it exists, has at most 1 MiB, decodes for its subdirectory and, for requests, a handler is set; then to the handler of the subdirectory, every field as written but for the identity |
| IpcRouter.WatchedExactly | internal/ipc/watcher.go:43-48 | the six watched subdirectories are exactly those with a handler |
| IpcRouter.Router.Route | internal/ipc/router.go:39-102 | one handler call with the payload re-signed, or an error and no call: missing file, size, unknown subdirectory, no capability handler, undecodable payload |
| IpcDelivery.ExecInv | internal/ipc/watcher.go:39-99 | registrations, publications, files, Create events and Watch turns stay consistent in every reachable state |
| IpcDelivery.SpawnTreeIdentity | internal/ipc/watcher.go:86-95 | in spawn trees of any depth every file is dispatched for the root chat of its writer; main agents' messages only go to Telegram for that chat, sub-agents' only into that chat's queue under their own identity |
| IpcSpawns.SpawnsExactly | cmd/pitu/main.go:183-190 | over every run the sub-agents are, in order, those that routed agent files with the action spawn asked for, one for each and none for any other file; each is a child of the agent that wrote the file, for its chat, in the sanitized role of the file |
| IpcDelivery.DeliveredOnceAndWhole | internal/ipc/watcher.go:73-99 | each file published in a watched subdirectory raises one Create event and is routed at most once, whole; temp files and responses are never routed |
| IpcDelivery.RemovedExactlyWhenRouted | internal/ipc/watcher.go:91-95 | a published file is on disk, whole, exactly until Route has succeeded for it |
| IpcDelivery.RaisesExactly | internal/ipc/watcher.go:43-62 | renaming raises a Create event exactly in the six registered subdirectories, and only agents publish there |
| IpcDelivery.WatchProceeds | internal/ipc/watcher.go:75-95 | while a Create event waits, Watch can take a turn |
| Watcher.Watcher.RegisterDir | internal/ipc/watcher.go:39-71 | rejects an empty chat; otherwise watches and identifies the six subdirectories, or those before the first directory that fails |
| Watcher.RegistersExactly | internal/ipc/watcher.go:43-71 | registration changes those six directories below the root and no other, in particular not responses/ |
| Watcher.RegisterRunIsRegisterDir | internal/ipc/watcher.go:43-59 | the half-steps of the transition system, taken together, are the method RegisterDir |
| Watcher.Watcher.HandleEvent | internal/ipc/watcher.go:83-95 | one event: ignored unless a Create, then looked up, routed, and removed only on success |
| Watcher.Watcher.Watch | internal/ipc/watcher.go:73-102 | the loop over any sequence of events |
| Watcher.OnlyCreatesMatter | internal/ipc/watcher.go:80-85 | events that create nothing change nothing, wherever they stand among the others |
| Watcher.TurnIsHandleEvent | internal/ipc/watcher.go:83-95 | one turn of the transition system makes the handler call and leaves the files that HandleEvent makes and leaves |
| CapabilityList.RoundTripExactly | internal/container/manager.go:330-332 | a list of names survives join and parse if and only if each is non-empty, trimmed and free of commas |
| CapabilityList.ParseJoinParse | cmd/pitu-mcp/capabilities.go:64-73 | parse, join, parse is parse, for every string |
| CapabilityList.ParseIsNormal | cmd/pitu-mcp/capabilities.go:64-73 | parsed names are non-empty, trimmed and free of commas |
| CapabilityList.TrimExactly | cmd/pitu-mcp/capabilities.go:67 | trimming takes away the white space at both ends, all of it and nothing else |
| CapabilityList.ParseExactly | cmd/pitu-mcp/capabilities.go:64-73 | what is parsed, in order: a piece without a comma is one name, its trimmed text, or nothing when it is all white space; a comma puts the names of both sides one after the other |
| CapabilityList.FamiliesInOrder | cmd/pitu-mcp/capabilities.go:97-113 | tool families come in registry order, each with all its tools or not at all |
| CapabilityList.BeforeExactly | internal/store/capabilities.go:25-40 | the order of the names: by the first character that differs, a prefix first |
| CapabilityList.CommaNameEnables | internal/container/manager.go:330-332 | a stored name with a comma enables the name after the comma |
| CapabilityList.RegisteredToolsExactly | cmd/pitu-mcp/capabilities.go:86-113 | for any stored names, the tools are those of registry entries that a stored name parses to |
| CapabilityList.EnabledToolsExactly | cmd/pitu-mcp/capabilities.go:86-113 | for well-formed stored names, the tools are those of the enabled registry entries |
| CapabilityList.ParseCapabilities | cmd/pitu-mcp/capabilities.go:64-73 | the loop computes the parse |
| CapabilityList.IsCapabilityEnabled | cmd/pitu-mcp/capabilities.go:75-82 | the loop decides membership |
| CapabilityList.RegisterCapabilityTools | cmd/pitu-mcp/capabilities.go:86-114 | the nested loops add listCapabilities and then the enabled families, in registry order |
| CapabilityList.CapabilityStore.GetCapabilities | internal/store/capabilities.go:25-40 | exactly the chat's rows, each once, in the byte order of their names; none on an error |
| CapabilityList.CapabilityStore.ToolsFor | cmd/pitu/main.go:210-217 | from the table to the tools an agent gets; only listCapabilities when the lookup fails |
| RateLimit.Limiter.Allow | internal/ratelimit/ratelimit.go:28-40 | one call appends its time to the chat's accepted times exactly when it returns true |
| RateLimit.ChatsAreIndependent | internal/ratelimit/ratelimit.go:32-39 | other chats' messages do not change what is accepted |
| RateLimit.ZeroDisables | internal/ratelimit/ratelimit.go:29-31 | with interval 0 every message passes |
| RateLimit.AcceptedAreSpaced | internal/ratelimit/ratelimit.go:32-39 | accepted times increase by at least the interval, even when clock readings come out of order |
| RateLimit.WindowBound | internal/ratelimit/ratelimit.go:32-39 | a window of length L holds at most L / interval + 1 accepted messages |
| RateLimit.GreedyIsMaximum | internal/ratelimit/ratelimit.go:25-40 | for times in order, no choice of messages with gaps of at least the interval is larger than the accepted one |
| Poller.Poll | internal/telegram/poller.go:51-80 | the loop hands over the updates, moves the offset and waits as specified for each kind of reply |
| Poller.WaitsExactly | internal/telegram/poller.go:58-71 | one wait for each request that came back without updates, in order: what the server asked for after a 429, two seconds otherwise |
| Poller.OffsetNeverDecreases | internal/telegram/poller.go:73-78 | for any server, the offset never decreases |
| Poller.HandledOnceInOrder | internal/telegram/poller.go:51-80 | with any mix of errors, each returned update is handled once, in ID order, and the next request asks from just after it |
| Poller.NothingLost | internal/telegram/poller.go:51-80 | of the arrived updates exactly the handled ones are confirmed; after a complete reply all are handled |
| SkillMerge.Disk.CopyDir | internal/skills/merge.go:37-59 | succeeds if and only if no file meets a directory, then the source tree lies over what was there; nothing beside it changes |
| SkillMerge.Disk.MountTree | internal/skills/merge.go:25-32 | one skill, at the target of any name: succeeds if and only if no file meets a directory, then the disk shows its directories and its tree there |
| SkillMerge.Disk.Merge | internal/skills/merge.go:16-35 | for skills of any names: succeeds if and only if no file meets a directory, then every path has the node of the first skill that has it, or what the cleared disk held |
| SkillMerge.MergedByName | internal/skills/merge.go:9-15 | for well-formed names, every path below the destination has the node of the first skill of that name with that path, and nothing stale |
| SkillMerge.MergedElsewhere | internal/skills/merge.go:16-35 | for well-formed names, nothing but the destination, what is below it and the directories above it changes |
| SkillMerge.ClashesByName | internal/skills/merge.go:16-35 | for well-formed names, Merge succeeds if and only if no two skills of one name clash and the destination can be made |
| SkillMerge.LowestIndexWins | internal/skills/merge.go:9-15 | the lookup finds the lowest index |
| SkillMerge.ResolveRules | internal/skills/merge.go:23-33 | targets follow the rules of filepath.Join: empty parts and dots change nothing, two dots take back the component before and stay at the root |
| SkillMerge.UniqueSkillIsMounted | internal/skills/merge.go:23-33 | with unique names the lookup is the source tree of the skill |
| SkillMerge.FitsIffNoClash | internal/skills/merge.go:23-33 | the next skill can be copied if and only if it clashes with nothing on the cleared disk and nothing copied before |
| SkillDiscovery.FrontmatterExactly | internal/skills/discovery.go:62-69 | which text is the frontmatter of a file, in terms of where fences occur |
| SkillDiscovery.Discover | internal/skills/discovery.go:19-54 | the loops with the set of seen names return, in the order of directories and their entries, for each offered name the offer that no earlier directory and no earlier entry makes, and find every offered name |
| SkillDiscovery.ScanEntries | internal/skills/discovery.go:29-52 | the loop over one directory's entries |
| SkillDiscovery.NamesOnce | internal/skills/discovery.go:42-46 | discovered names are unique and are the offered names |
| SkillDiscovery.FirstOccurrenceWins | internal/skills/discovery.go:18-46 | the discovered skills are the first offers of their names, in order |
| SkillDiscovery.DiscoveredExactly | internal/skills/discovery.go:18-46 | in terms of directories and entries: an earlier directory wins, within a directory the earlier entry, only readable directories and entries with a described SKILL.md count, and no offered name is missed |
| SkillDiscovery.DiscoveredSkillsAreMounted | internal/skills/merge.go:16-35 | what Discover returns, with well-formed names, merges if and only if the destination can be made, and then each mounted subtree is exactly its source tree |

## Left out

- JSON, TOML, YAML, SQL and cron parsing: the decoders and the cron parser are parameters, tables are maps or sets.
- Podman, OpenCode, HTTP, inotify and MCP server wiring: events or parameters; podman is the set of running containers.
- A podman run that reports an error after it has started a container: a failed start starts nothing in the model.
- RegisterDir failing after podman run, which is only logged: Watcher.Watcher.RegisterDir models the failure, IpcDelivery assumes that it succeeds.
- IpcDelivery: destination and temp names are distinct (the code uses nanosecond clocks and random names), fsnotify loses no event and raises one per rename, chat IDs, agent IDs and file names are single path components, and request IDs are UUIDs as pitu-mcp makes them.
- IpcDelivery: agents write through publications by rename only; a program in a container that writes into a watched subdirectory in place is not modelled.
- CapabilityCalls: of an error response the code is modelled and not its text; calls come from main agents; sub-agents are not given capability tools. Request IDs are fresh; request file names may collide there.
- Manager.Manager.StopAll: the method runs with nothing else moving; for all interleavings see PoolShutdown.OnlyTheseAreLeft, PoolStopSafety.StopAllLeavesNothingExactly and ShutdownSafety.ShutdownLeavesNothingExactly.
- PoolStopSafety.StopAllLeavesNothingExactly: continuations without new dispatches, spawns and failing podman stops; ShutdownSafety.ShutdownLeavesNothingExactly allows dispatches and spawns.
- ShutdownSafety.ShutdownLeavesNothingExactly: continuations in which no new call of Enqueue brings a closure of the scheduler or of a sub-agent, and no podman stop fails; calls already inside Enqueue go on. The context is cancelled before StopAll, so only closures with the background context start containers then; a podman run that the cancellation interrupts starts nothing.
- ProcessExit.NothingOutlivesExactly: the same continuations; the poll handler holds main back only while it is inside Enqueue, its other calls are taken to return.
- Queue.Queue.Stop: the method runs with idle workers and nobody else moving; for all interleavings see QueueShutdown.StopReturnsExactly and QueueShutdown.StopCompletes.
- StopAll ranges over a sync.Map as that type documents it: no key twice, every key that stays, and a key stored meanwhile or not.
- QueueShutdown: a second Stop (sync.Once) returns after the first and is left out; with maxConcurrent 0 the code blocks forever, and queued closures are taken to return.
- Poller.NothingLost: one process; a restarted process begins at offset 0, so Telegram may redeliver its last batch.
- RateLimit: times are unbounded integers, so the saturation of Go's durations is not modelled.
- SkillMerge: symbolic links and unreadable files do not occur, and SkillMerge.MergedByName and SkillDiscovery.DiscoveredSkillsAreMounted are about names that are one path component; SkillMerge.Disk.Merge is about any names.
- SkillMerge.Disk.Merge: source trees are values read before the destination is cleared, so a source below the destination, or a name whose target lies inside another skill's source, is not modelled.
- TaskHandler.Harness.OnTask: the compensating delete is an unreachable branch; TaskRegistry.HandlerStates spells it out and CompensationUnreachable proves it dead.
- WriteContext, BuildCatalog, OpenCode configuration, run-argument builders, SanitizeRole, SanitizePrompt, parseRetryAfter, the allowlist, the service and CLI commands, message and group tables: easy members.
