# WasmHot core: a verified model

WasmHot is a small server: a component store and an object registry shared by many threads, schema
migration, actors with mailboxes, a framed TCP gateway, a log sink that rotates by date and size,
rate-limited logging, and modules that can be reloaded while running. This project models those
components and proves what each promises over all schedules and all runs.

`dafny verify dfyconfig.toml` checks everything.

## How it is modelled

Code that several threads run at once is a machine: a state, one step per lock operation or critical
section, and a schedule that is an arbitrary sequence of calls and steps. Theorems speak of the state after
any schedule. Beside the machines, the source's classes appear as Dafny classes. Each of their methods is
proved to be the function of the specification, or the moves of the machine, that the theorems are about.

| files | component |
|---|---|
| `Histories`, `Locks` | calls that are invoked, take effect and return; reader-writer locks |
| `StorageSpec`, `StorageMachine`, `StorageProof`, `StorageMeaning` | component store: an atomic map, the two-level locks, linearizability, what the answers mean for the callers |
| `StorageWindow`, `StorageClass` | the slow-path window, the store in place |
| `RegistrySpec`, `RegistryMachine`, `RegistryProof`, `RegistryHistory` | object registry, migration engine and store together: headers are linearizable |
| `RegistryMeaning`, `RegistryMigrate`, `RegistryCalls`, `RegistryStore` | what the calls of the registry answer, store, register and remove, told from the calls alone |
| `RegistryDeadlock`, `RegistryWindow` | when the whole system stays defined, no deadlock, and a schedule of registry calls that breaks the store |
| `Migration` | the walk over schema versions, sequentially |
| `ActorMachine`, `ActorClass` | mailbox and strand of one actor |
| `ActorRuntime`, `ActorSends`, `ActorRuntimeClass` | many actors found by id |
| `LogNames`, `LogSink`, `LogRuns` | log file names, rotation, retention over runs |
| `Framing`, `Session` | gateway frames, read loop, send queue |
| `RateLimit` | the rate-limited logging macros |
| `ModuleManager` | hot reload with one-deep undo |
| `Basics` | shared types |

## What the results say

**Component store.** Every history is linearizable, and each step either leaves the abstract map alone or is
the taking effect of the mover's own call: filling the slot on the slow path of `Write` is a stutter, and two
racing first writers share one slot. A `Read` gives the data of the last accepted write that no removal has cleared,
by the calls of the schedule and nothing else. A slow-path `Write` uses its iterator without the map lock
(`component_storage.cpp:33-34`). Two things can spoil it there. A `RemoveAll` of the same object can erase the
object; and the first `Write` of any other object can rehash `store_`, a `std::unordered_map`
(`component_storage.h:52`), which invalidates all iterators. The model lets any insertion rehash. Using a spoiled
iterator leads to an `Undefined` point instead of getting a meaning: nothing is claimed about a thread after undefined
behaviour. `DefinedIffMoveIsClear` says exactly which steps keep the store defined, `StoreIsDefinedIff` which
schedules, and `WindowIsReal` and `RehashIsReal` give a schedule for each of the two accidents.

**Registry and migration.** Each call on headers takes effect once between its invocation and its return and
returns what an atomic registry answers: a `Get` hands out what the last `Create` or successful `Migrate` of the id
left, or nothing after a `Destroy`. Under any schedule a `Migrate` answers true if and only if every version pair on
its way was registered when it was looked up and every migration function called said so, and then the header of the
last verdict is stored. Component writes of a failed migration stay, exactly those of the longest successful prefix
of steps and of the failing step. The five classes of locks are taken in the order registry map, entry, engine, store
map, object. From every reachable state with an unfinished call some thread can go on, even if waiting writers keep
new readers out, provided the schedule kept the store defined, for which `SystemIsDefinedIff` has the exact
condition. Registry calls alone can violate it (`RegistryWindowIsReal`): `Destroy` releases the registry lock before it
removes the components, so it can erase the components of a new object of the same id that a migration function is
writing for the first time.

**Actors.** handled ++ running batch ++ mailbox is always what was sent, and in the runtime what was handed to that
actor object. Ticks steal mailboxes and leave
spurious drains behind, so the number of pending drains is exactly (1 if the mailbox is nonempty) + stolen −
spurious. The number of strand steps until a message is handled is exact, and the same actor object handles it
whatever is killed or spawned meanwhile.

**Log sink.** The size counter is the length of the open file throughout a run if and only if there is a backup
file or the run never rotates: with none, a rotation opens the full file again and starts counting at zero. With at
least one, the files of a date are gap-free and hold a contiguous suffix of its messages that ends with the newest.
Nothing is dropped before all files exist, files are only closed when the next message does not fit, and the sizes are
bounded.

**Gateway.** However the stream is split, the read loop delivers what a one-shot parser finds. The frames of a list
of messages are read back as that list if and only if all sizes are in 4 .. 2^32 − 1: `Send` does not check
either bound, and a shorter message makes the peer close. wire ++ in flight ++ queued are always the frames of
the messages sent, and each completed write is one frame.

**Rate limits.** `LOG_EVERY_MS` with stale loads and spurious failures still keeps recorded times ms apart.

**Modules.** `HotReloadAll` leaves the same manager in whatever order the configurations are visited. `Rollback`
restores the plugin but not the configuration, so the version reported afterwards is the restored plugin's own only
if the two versions coincide; after a failed reload it undoes an older one.

## Assumptions

- Locks, atomics, shared pointers and containers do what the C++ standard says.
- A strand runs posted tasks one at a time in FIFO order, and `post` never runs its task inline.
- The handlers of one session run one at a time. They are posted to the plain socket executor, so this holds for
  `thread_num = 1` (`src/main.cpp:37`).
- `async_write` carries the bytes of `framed`, although the buffer is made in the same argument list that moves
  it. Both ends of a connection use the same byte order.
- Migration functions touch only storage, and `Read` callbacks take no locks.
- The configured log sizes, the file system's answers and the clock are parameters.
- Handlers, migration functions and file operations throw no exceptions, and no 64-bit counter wraps.

## Model

| member | source | states |
|---|---|---|
| StorageProof.StoreIsLinearizable | src/core/component_storage.cpp:5-66 | after any schedule of any number of threads the history is linearizable and the store holds exactly the contents of the atomic map |
| StorageMeaning.StoreAnswersForLastWrites | src/core/component_storage.cpp:5-66 | after any schedule the history is made of exactly the calls made; Read answers the data of the last accepted write not cleared since, Remove whether there is one, the sized Write whether the size fits |
| StorageMeaning.AnswersAreLatest | src/core/component_storage.cpp:5-66 | the same for every legal history |
| Histories.ReturnHasItsTake | src/core/component_storage.cpp:5-66 | in a well-formed history each call takes effect once, between its invocation and its return, with the answer it returns |
| StorageProof.StepsStutterOrTake | src/core/component_storage.cpp:21-34 | every step, slot filling included, leaves the abstract map alone or applies the mover's own operation to it |
| StorageProof.MoveKeeps | src/core/component_storage.cpp:5-66 | each step keeps the lock, table, iterator and history invariants |
| StorageProof.DefinedIffMoveIsClear | src/core/component_storage.cpp:18-35 | a step keeps the store defined iff it does not erase an object inside the window of a slow-path Write of it, nor rehash the table while a slow-path Write will still use its iterator |
| StorageProof.StoreIsDefinedIff | src/core/component_storage.cpp:18-66 | a schedule stays clear of undefined behaviour throughout iff each of its steps is clear in that sense |
| StorageProof.DoomedIsNext | src/core/component_storage.cpp:33-34 | a thread in the window that is not defined any more can step, and steps into undefined behaviour |
| StorageProof.RacingWritersShareSlot | src/core/component_storage.cpp:24-31 | after any schedule two slow-path writes of one object with live iterators share one slot |
| StorageWindow.WindowIsReal | src/core/component_storage.cpp:31-34 | a schedule in which a slow-path Write uses an object erased by RemoveAll |
| StorageWindow.RehashIsReal | src/core/component_storage.cpp:27-34 | a schedule without any removal in which a slow-path Write uses an iterator that the first Write of another object has invalidated |
| StorageClass.ComponentStorage.Read | src/core/component_storage.cpp:5-16 | the answer is that of the atomic map, absent objects and absent components alike |
| StorageClass.ComponentStorage.Write | src/core/component_storage.cpp:18-35 | the component has the new data, replacing any, and every other component is as before; only a fresh slot may be added to the table |
| StorageClass.ComponentStorage.WriteSized | src/core/component_storage.cpp:37-42 | rejected without effect iff the size differs from the schema's |
| StorageClass.ComponentStorage.Remove | src/core/component_storage.cpp:44-52 | true iff the component existed; it is gone, the others and the possibly empty object stay |
| StorageClass.ComponentStorage.RemoveAll | src/core/component_storage.cpp:54-66 | all components of the object and its slot go, nothing else |
| RegistryHistory.RegistryIsLinearizable | src/core/object_registry.cpp:10-70 | after any schedule each call took effect once between invocation and return, returned the answer of an atomic registry, and the stored headers are that registry's |
| RegistryHistory.GetReturnsCommitted | src/core/object_registry.cpp:18-35 | a header that a Get hands out was left by a Create or a successful Migrate of that object that took effect before the Get returned |
| RegistryMeaning.RegistryAnswersForLastCalls | src/core/object_registry.cpp:10-70 | after any schedule Get answers what the last Create, Destroy or successful Migrate of the id left, and Migrate is false for an id that has none |
| RegistryMigrate.MigrateSaysTrueIff | src/core/migration_engine.cpp:14-37 | under any schedule Migrate answers true iff the object was there, every pair on the way was registered when looked up, and every function called returned true; otherwise it stops at the first failure |
| RegistryMigrate.MigrateStoresVerdict | src/core/object_registry.cpp:63-69 | a successful Migrate replaces the header it started from by that of the last verdict with the target version, or keeps it if there was no step |
| RegistryCalls.RegisteredByCalls | src/core/migration_engine.cpp:9-12 | under any schedule the table holds only pairs of Register calls, every pair of a finished one, and never loses any |
| RegistryStore.StorageIsDone | src/core/object_registry.cpp:37-55 | under any schedule a finished Destroy that erased its object has made its RemoveAll, a storage call its operation, and a migration function what it chose |
| RegistryProof.MigrationHidesItsSteps | src/core/object_registry.cpp:57-70 | while a migration runs, the stored header stays the one it started from |
| RegistryProof.StoreStaysLinearizable | src/core/object_registry.cpp:37-70 | the store stays linearizable when Destroy and migration functions use it |
| RegistryProof.MoveKeeps | src/core/object_registry.cpp:10-70 | each step keeps the ownership, header and history invariants of the whole system |
| RegistryDeadlock.LocksAreOrdered | src/core/object_registry.cpp:10-70 | a thread only wants a lock of a class after all classes it holds, so it never takes one twice |
| RegistryDeadlock.DefinedIffMoveIsClear | src/core/object_registry.cpp:37-70 | a step of the whole system keeps the store defined iff it is clear there |
| RegistryDeadlock.SystemIsDefinedIff | src/core/object_registry.cpp:37-70 | and so for whole schedules of registry, engine and storage calls |
| RegistryWindow.RegistryWindowIsReal | src/core/object_registry.cpp:37-55 | Destroy racing Create and Migrate of the same id reaches undefined behaviour |
| RegistryDeadlock.NoDeadlock | src/core/object_registry.cpp:10-70 | after every schedule of clear moves with an unfinished call some thread can go on, whatever its migration function decides and even behind waiting writers |
| Migration.KeyHalves | src/core/migration_engine.cpp:5-7 | the halves of the 64-bit key are the two versions |
| Migration.KeyBitsInjective | src/core/migration_engine.cpp:5-7 | different version pairs have different keys |
| Migration.RegisterOverwritesOnePair | src/core/migration_engine.cpp:9-12 | Register changes the function of its own pair and of no other |
| Migration.StepCalls | src/core/migration_engine.cpp:27-37 | a step is the registered function called with the pair, or a failure without changes |
| Migration.WalkSucceedsIff | src/core/migration_engine.cpp:14-37 | Migrate succeeds iff there is a path of successful calls of the registered functions to the target, and leaves the view at its end |
| Migration.WalkFailsAfterPrefix | src/core/migration_engine.cpp:14-37 | a failed Migrate leaves the longest successful path and what the failing function did, or nothing more if the pair is not registered |
| Migration.SuccessReachesTarget | src/core/migration_engine.cpp:15-24 | on success the header version is the target, whatever the steps did to it |
| Migration.WalkComposes | src/core/migration_engine.cpp:14-25 | to b and then to c is straight to c whenever b lies between |
| Migration.RoundTrip | src/core/migration_engine.cpp:14-37 | if the registered functions of each adjacent pair undo each other, going anywhere and back restores header and components |
| Migration.RegistryMigrationsCompose | src/core/object_registry.cpp:57-70 | two stored migrations in a row end as the straight one, and fail as it does if the first fails |
| Migration.MigrationEngine.Register | src/core/migration_engine.cpp:9-12 | the table as a map on pairs is updated at the pair |
| Migration.MigrationEngine.MigrateStep | src/core/migration_engine.cpp:27-37 | fails without changes if nothing is registered, else answers what the registered function does with the view and the pair |
| Migration.MigrationEngine.Migrate | src/core/migration_engine.cpp:14-25 | the loop terminates within 32 bits and computes the fold over the version interval |
| Migration.ObjectRegistry.Create | src/core/object_registry.cpp:10-16 | stores the header under its id, replacing any |
| Migration.ObjectRegistry.Get | src/core/object_registry.cpp:18-35 | answers the stored header or nothing |
| Migration.ObjectRegistry.Destroy | src/core/object_registry.cpp:37-55 | removes header and components, or does nothing at all for an unknown id |
| Migration.ObjectRegistry.Migrate | src/core/object_registry.cpp:57-70 | the header is replaced only on success, the components are what the walk left either way |
| ActorMachine.ExactlyOnceInOrder | src/actor/actor.cpp:15-40 | handled ++ rest of the batch ++ mailbox == the messages sent, in every reachable state |
| ActorMachine.NoLostWakeup | src/actor/actor.cpp:15-40 | the exact number of pending drains, from the ticks that found messages and the drains that found none; a nonempty mailbox has one |
| ActorMachine.TasksStartInOrder | src/actor/actor.cpp:15-40 | no posted task is lost, and tasks start in the order posted |
| ActorMachine.EveryTickRuns | src/actor/actor.cpp:35-40 | each scheduled tick runs its body exactly once or is still due |
| ActorMachine.PerSenderOrder | src/actor/actor.cpp:24-33 | what was handled of a sender is a beginning of what it sent |
| ActorMachine.OneStepCloser | src/actor/actor.cpp:15-40 | each strand step brings each waiting message exactly one step closer, nothing else does, and the strand can step while one waits |
| ActorMachine.HandledAfterSteps | src/actor/actor.cpp:15-40 | the exact number of strand steps until a message is handled |
| ActorClass.ActorObject.EnqueueMessage | src/actor/actor.cpp:15-22 | appends the message to the mailbox, and posts a drain only if it was empty |
| ActorClass.ActorObject.ProcessMessages | src/actor/actor.cpp:24-33 | handles exactly the swapped batch; what handlers send to their own actor waits |
| ActorClass.ActorObject.ScheduleTick | src/actor/actor.cpp:35-40 | posts one tick task |
| ActorClass.ActorObject.RunTask | src/actor/actor.cpp:35-40 | a task run to its end is the corresponding events of the machine and handles the whole mailbox |
| ActorRuntime.NothingAcceptedIsLost | src/actor/actor_runtime.cpp:9-46 | no pointer dangles, only actors that handled everything are collected, and an unfinished one can step |
| ActorRuntime.SameActorHandles | src/actor/actor_runtime.cpp:9-46 | an accepted message is handled by the same actor object, in exactly the strand steps left, across Kill and Spawn |
| ActorRuntime.MoveOnActor | src/actor/actor_runtime.cpp:20-46 | each step of the runtime is the one event it should be on one actor and nothing on the others |
| ActorSends.AcceptedIsHanded | src/actor/actor_runtime.cpp:9-46 | in every run an id names the actor of its last Spawn not killed since, a message goes to the actor named at its lookup, and an actor has accepted exactly the messages handed to it |
| ActorSends.HandedIsHandled | src/actor/actor_runtime.cpp:9-46 | a collected actor has handled every message handed to it; of a living one they are handled, in the batch or in the mailbox |
| ActorRuntimeClass.ActorRuntimeObject.Spawn | src/actor/actor_runtime.cpp:9-13 | the Spawn move of the runtime machine: table, objects and model stay in agreement |
| ActorRuntimeClass.ActorRuntimeObject.Kill | src/actor/actor_runtime.cpp:15-18 | the Kill move of the runtime machine, no actor object changes |
| ActorRuntimeClass.ActorRuntimeObject.Tick | src/actor/actor_runtime.cpp:20-34 | snapshot and loop are the moves of one Tick: every actor gets one tick per id it is registered under |
| ActorRuntime.TickPostsToAll | src/actor/actor_runtime.cpp:20-34 | what those moves do to every actor |
| ActorRuntimeClass.ActorRuntimeObject.SendMessage | src/actor/actor_runtime.cpp:36-46 | the lookup, and if the id is known the delivery to that actor; an unknown id drops the message |
| ActorRuntimeClass.ActorRuntimeObject.RunStrand | src/actor/actor.cpp:24-40 | a task of an actor's strand, run to its end, is steps and sends of the runtime machine |
| ActorRuntimeClass.ActorRuntimeObject.NothingIsLost | src/actor/actor_runtime.cpp:9-46 | in every state the runtime's calls lead to, an actor object that has not handled all it accepted is held and can step |
| LogNames.DecimalInjective | src/core/logging.cpp:71 | different indices are written differently |
| LogNames.FilenameIs | src/core/logging.cpp:68-72 | index 0 is the base file, index n > 0 the base name, a dot and the decimal digits of n |
| LogNames.FilenameInjective | src/core/logging.cpp:27-34 | no file of one date is a file of another date or index |
| LogSink.ShiftOneExact | src/core/logging.cpp:89-94 | one turn of the loop moves one file and touches no other |
| LogSink.RotateExact | src/core/logging.cpp:86-98 | the exact files after the loop, for any files before it, gaps included |
| LogSink.RotateEmptiesBaseIff | src/core/logging.cpp:86-98 | the base file is empty after Rotate iff there is a backup file |
| LogSink.DateRotatingFileSink.constructor | src/core/logging.cpp:38-44 | clamps both limits and opens the base file with its size |
| LogSink.DateRotatingFileSink.CheckDateAndRotate | src/core/logging.cpp:74-84 | switches to the file of the day with its size, or does nothing |
| LogSink.DateRotatingFileSink.Rotate | src/core/logging.cpp:86-98 | the in-place loop computes the shift of RotateExact |
| LogSink.DateRotatingFileSink.SinkMessage | src/core/logging.cpp:47-63 | one write as the runs of LogRuns see it |
| LogRuns.SizeStaysTrackedIff | src/core/logging.cpp:47-63 | one write keeps the counter equal to the open file's length iff there is a backup file or the write does not rotate |
| LogRuns.AlwaysTrackedIff | src/core/logging.cpp:38-63 | the counter is right throughout a run iff there is a backup file or the run never rotates |
| LogRuns.OtherDatesUntouched | src/core/logging.cpp:47-98 | a write touches no file of another name family |
| LogRuns.RunShows | src/core/logging.cpp:47-98 | whole runs refine a list of message chunks, date by date |
| LogRuns.Retention | src/core/logging.cpp:47-98 | the files of a date are gap-free and hold a contiguous suffix of its messages ending with the newest; nothing is dropped before all files exist, and a file is only closed when the next message does not fit |
| LogRuns.SizeBounds | src/core/logging.cpp:47-98 | a file is within the limit or one oversize message; without those the date is within (maxFiles + 1) * maxSize |
| Framing.DecodeEncode | src/core/gateway.cpp:74-76 | the length is read back from its four bytes |
| Framing.FrameHolds | src/core/gateway.cpp:72-77 | a frame is the size modulo 2^32 in four bytes and the message as it is |
| Framing.ChunksDoNotMatter | src/core/gateway.cpp:34-61 | for any split of the stream the read loop delivers the messages of the one-shot parser and closes iff it met a length below 4 |
| Framing.ClosedForGood | src/core/gateway.cpp:42-45 | after that nothing more is delivered |
| Framing.FramesReadBack | src/core/gateway.cpp:34-88 | sendable messages are read back as exactly the list written |
| Framing.ReadBackIff | src/core/gateway.cpp:42-77 | frames read back as the list iff every message has 4 to 2^32 - 1 bytes |
| Framing.BeginningReadBack | src/core/gateway.cpp:34-88 | any cut of the stream delivers a beginning of the list and never closes |
| Session.NothingIsLost | src/core/gateway.cpp:20-29 | without an error wire ++ in flight ++ queued == frames of the messages sent; a nonempty queue waits behind the one write |
| Session.OneFrameAtATime | src/core/gateway.cpp:63-88 | without an error n completed writes have put the frames of the first n messages on the wire, and only the next may be in flight |
| Session.HandleKeeps | src/core/gateway.cpp:63-95 | every handler keeps that invariant |
| Session.SilentAfterError | src/core/gateway.cpp:81-87 | after a write error no frame is started and no byte is written |
| Session.PeerReceivesInOrder | src/core/gateway.cpp:20-88 | end to end, the peer delivers a beginning of the messages sent, all of them once the writer is idle without an error |
| Session.GatewaySession.StartWrite | src/core/gateway.cpp:63-88 | takes the first queued message into flight, or ends the writing |
| Session.GatewaySession.PostedSend | src/core/gateway.cpp:22-28 | queues, and starts a write only if none is in progress |
| Session.GatewaySession.WriteDone | src/core/gateway.cpp:81-87 | the frame is on the wire and the next one starts |
| Session.GatewaySession.WriteFailed | src/core/gateway.cpp:82-85 | the write ends for good: the progress flag stays set |
| Session.GatewaySession.Receive | src/core/gateway.cpp:34-61 | header and body reads in place consume a chunk as byte by byte |
| Session.Dispatcher.OnReceive | src/core/gateway.cpp:159-175 | calls the function last registered for the type in the first four bytes, once and with the message, iff there is one |
| Session.TypeIsInFront | src/core/gateway.cpp:163-164 | the type of a message is the number in its first four bytes |
| RateEveryMs.RecordedTimesAreSpaced | src/core/logging.h:54-66 | recorded times are at least ms apart, with stale loads and spurious failures |
| RateEveryMs.LoggedAreTheRecorded | src/core/logging.h:61-65 | each recorded time is logged by exactly one call |
| RateEveryMs.RateIsLimited | src/core/logging.h:53-66 | at most width / ms + 1 messages have times in any window |
| RateEveryMs.SilencedByNewer | src/core/logging.h:60-63 | a due call loses its exchange iff a newer time was recorded since its load |
| RateEveryMs.UndisturbedCall | src/core/logging.h:54-66 | an undisturbed call logs iff its time is ms past every recorded one, and then records that time |
| RateCounted.LogsAreTheChosen | src/core/logging.h:34-51 | under any interleaving each chosen number is logged exactly once and no other is |
| RateCounted.LogsFillTheQuota | src/core/logging.h:34-51 | after k calls ceil(k / n) or min(k, n) messages, k counted in the schedule |
| RateCounted.OnceIsOnce | src/core/logging.h:72 | LOG_ONCE logs once |
| Modules.RunKeeps | src/core/module_manager.cpp:15-92 | one domain for modules, configurations and versions in every run; versions are those of the configurations |
| Modules.RunShows | src/core/module_manager.cpp:15-104 | what Get, Rollback and the reported version show after any run, told from the calls alone |
| Modules.RunKeepsConfig | src/core/module_manager.cpp:15-92 | the stored configuration of a name is the newest installed, path included |
| Modules.RunShutsDown | src/core/module_manager.cpp:82-92 | Shutdown is called for exactly the plugins current at an Unload |
| Modules.ReloadThenRollback | src/core/module_manager.cpp:29-80 | restores Get; the reported version is the plugin's own iff both versions coincide |
| Modules.RollbackIsOneDeep | src/core/module_manager.cpp:68-80 | a second Rollback changes nothing |
| Modules.SnapshotReloads | src/core/module_manager.cpp:47-66 | the closed form of a bulk reload in any order |
| Modules.OrderDoesNotMatter | src/core/module_manager.cpp:52-64 | two orders leave the same manager |
| Modules.ReloadAllShows | src/core/module_manager.cpp:47-66 | failed names keep everything, successful ones move their plugin to previous |
| Modules.RollbackAfterReloadAll | src/core/module_manager.cpp:47-80 | a Rollback then restores the plugin iff its reload succeeded or there was nothing older to undo |
| ModuleManager.ModuleManager.LoadModule | src/core/module_manager.cpp:15-27 | false without effect if the plugin cannot be made, else installed; previous is kept |
| ModuleManager.ModuleManager.HotReloadModule | src/core/module_manager.cpp:29-45 | the same, with the current plugin moved to previous |
| ModuleManager.ModuleManager.HotReloadAll | src/core/module_manager.cpp:47-66 | reaches the closed form and returns true iff every reload succeeded |
| ModuleManager.ModuleManager.RollbackModule | src/core/module_manager.cpp:68-80 | previous becomes current once, the version is that of the kept configuration |
| ModuleManager.ModuleManager.UnloadModule | src/core/module_manager.cpp:82-92 | the name leaves all four maps, its plugin is shut down |
| ModuleManager.ModuleManager.GetModule | src/core/module_manager.cpp:94-98 | the current plugin or none |
| ModuleManager.ModuleManager.GetLoadedSchemaVersion | src/core/module_manager.cpp:100-104 | the recorded version, 0 for an unknown name |

## Left out

- WasmEdge calls, the host module, guest memory and hashing: a plugin is an opaque value whose creation may fail.
- Sockets, accept, bind, the session table of the gateway and signal handling: only bytes and completions remain.
- Asio internals, `src/main.cpp`, configuration loading, heap dumps, build files and scripts.
- `SchemaManager`, `GameObject::ApplyOutputDelta`, session ids and `Singleton`: single-branch claims.
- `ActorWithObject`: cloning plugins and invoking a module on an object view would only add lookups.
- Callbacks of `Read` and `Get`: the model returns what the callback is given, and nothing the callback does.
- What a program does after an undefined access of the store: the machine stops that thread at `Undefined`.
- RegistryDeadlock.NoDeadlock: speaks of schedules whose moves are clear, because a thread in undefined behaviour has no next step in the model (UndefinedIsStuck).
- Migration.MakeKeyInjective: the table of the model is keyed by the number from * 2^32 + to; KeyHalves shows that the 64-bit key has the same halves.
- LogRuns.Retention: needs maxFiles >= 1; with none the rotated file is opened again, which RotateEmptiesBaseIff states.
- ActorClass.ActorObject.ProcessMessages: sends of other threads during a batch are in ActorMachine, not in the class; likewise ActorRuntimeClass runs one call or task at a time, and all interleavings are in ActorRuntime.
- ModuleManager.ModuleManager.HotReloadAll: other calls of the manager between its snapshot and its last reload are in Modules.RunKeeps and RunShows as separate reloads.
- The rate-limit macros have no in-place form: they are step programs, because their point is interleaving.
- spdlog formatting and flushing: a message is a string of bytes.
- Fairness of locks and of the scheduler: deadlock freedom is proved, starvation is not excluded.
