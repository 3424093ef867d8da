# Verification of openworkers-runtime-v8

A Dafny model of the parts of openworkers-runtime-v8 that have to be right under every
interleaving: the gates of a Durable Object, the isolate pool and its warm contexts, the turns
of requests that share an isolate and the watchdogs that stop them, the channels that carry a
response body and a WebSocket, and the accounts of memory. `dafny verify dfyconfig.toml` checks
all of it. Nothing of the original program was executed.

Each protocol is a value `State`, a function that takes one atomic step of it, and a fold over
any list of steps; an invariant is proved step by step, and the theorems speak of every state a
run can reach. Where the source updates objects in place, a class has the same fields, and its
methods are proved to take steps of that machine.

| file | models |
|---|---|
| `Storage`, `ObjectQueue` | the storage ops of a Durable Object, and the queue task that performs them in order |
| `ObjectGates`, `GateInvariants`, `GateTheorems` | the output gate and the input gate, from the guest's call to the host and back |
| `DurableObject` | a turn of the object: admitting events, draining callbacks, answering |
| `Transaction` | the overlay of `storage.transaction` |
| `PoolPolicy`, `Pool`, `IsolatePool` | which isolate a request gets, and the pool over whole runs |
| `ContextCache` | the warm contexts of an isolate over whole runs |
| `TurnSafety`, `CpuBudget` | turns on an isolate, guards that fire from other threads, CPU budgets |
| `TimeoutWatchdog`, `CpuWatchdog` | the deadline watchdog, and the park and wake of the macOS CPU watchdog |
| `ResponseStream`, `WebSocketPair` | a response body on its way out, sockets and pairs |
| `Callbacks` | callbacks over the requests of a reused context |
| `ExternalMemory`, `ArrayBufferLimit` | memory reported to V8, and the limit on array buffers |
| `Options`, `Lists` | shared definitions |

## Where the code is not what its comments or its callers expect

- The comment on held output says that every way out of the object waits for the writes before
  it. Calls of the KV, storage, database, D1 and invoke bindings, and the connections, messages
  and closes of client sockets, take no gate and leave early: `GatedKinds` proves exactly which
  kinds of output the gate covers.
- Telling a guest that the client of a streaming response hung up runs its code while a read is
  under way. `DisconnectPassesTheInputGate` is such a run; `OnlyDisconnectPassesTheInputGate`
  shows that nothing else does, and `InputGateIsTight` when there is none.
- In a transaction, the count of a delete leaves out keys that hold undefined, and a put that
  fails on a value that does not clone keeps the entries before it. `DeleteCount`, `DeleteAny`
  and `PartialPut` give the exact conditions under which the two agree with direct calls;
  `RunTransaction` covers the transactions in which they do not.
- The policy is written for the time at which the last request of an isolate ended, so that the
  isolate longest out of use goes; the pool keeps the time at which the last request began.
  `EvictsTheOneUsedLast` is a run in which the isolate that was in use until just now is evicted
  and one idle for longer stays; `EvictedIsIdleForLongest` is exact about when that happens.
- `superseded` is no order: two deployments of one version, one with an environment time and
  one without, replace each other (`ReplaceEachOther`, `ChainInACircle`). `SupersededChain` says
  over which chains it carries from the first to the last.
- The sweep of replaced contexts is not final: a request of an older deployment that ends after
  it brings its context back. `AnOlderContextIsBack` is such a run, and `OlderComesBack` says over
  all runs exactly when.
- A wall-clock guard of one turn of a socket, taken by the watchdog just before the turn ends,
  can set its flag and terminate in the next turn of the same request, whose own guard did not
  fire. `GuardOfAnEarlierTurnCuts` is such a run; `CutEndsTheRequest` is exact about it.
- The watchdog's sleep is computed from one reading of the clock and begins at a later one, so
  it outlasts the earliest deadline by that lag, and by no more (`SleepsPastADeadline`,
  `SleepOutlastsByItsLag`).
- With a high water mark of zero a stream takes no data at all (`WritesWithinTheMark`).
- A guest that sends on the server end of a pair and closes it before the connection is there,
  in particular before it returns the response, loses all it sent: neither the messages nor a
  close frame go out, and the guest hears its own code as if they had. `AnEarlyCloseLosesAll` is
  such a run, `CloseComesAfterAll` is exact about it, and `ClosedBeforeTheResponse` shows that
  nothing later makes up for it.
- A connected socket whose command channel is dropped without a close ends without a word to the
  guest, the one end that does (`TheGuestIsTold`).
- `close(NaN)` passes the check of the close code and goes out as code 0 (`GuestCodes`).
- A guard of external memory made without a lock is lost to the count, where its comment says
  that the change is deferred (`MadeWithoutALockIsLost`, `StepKeepsBalance`).
- An attempt to allocate an array buffer can be denied because of another that is itself denied
  later (`DenialIsOnTheSum`).

## Model

| member | source | states |
|---|---|---|
| `ObjectQueue.RunMeaning` | src/runtime/scheduler.rs:758-800 | after any work and any replies, the host was asked for exactly the storage and socket ops up to and including the first failed write, in order; every storage op has one answer, the host's or, after the failure, the storage error; a barrier is open iff no write before it failed |
| `ObjectQueue.RunObjectQueue` | src/runtime/scheduler.rs:758-800 | the loop of the queue task has that meaning, and answers the storage ops one for one, in the order they came |
| `ObjectQueue.FirstFailed` | src/runtime/scheduler.rs:758-800 | the first work that is a write the host failed: none before it failed, and a failed read is none |
| `ObjectQueue.AnswersInOrder` | src/runtime/scheduler.rs:758-800 | every storage op gets exactly one answer, in order, whatever fails |
| `ObjectQueue.EveryAnswer` | src/runtime/scheduler.rs:758-800 | a storage op has the host's own answer up to and including the first failed write, and the storage error from there on |
| `ObjectQueue.StoreIsThePrefix` | src/runtime/scheduler.rs:758-800 | the store of the host holds exactly the ops before the first failed write, applied in order as a plain store would |
| `ObjectQueue.ReadsSeeEarlierWrites` | src/runtime/scheduler.rs:758-800 | a read before any failed write is answered from the store with every op queued before it applied, awaited or not |
| `GateInvariants.ReachedKeeps` | src/execution_context/durable_object.rs:509-577 | the invariant of the whole object, channels, counters, frames and outputs, after the constructor and any steps |
| `GateInvariants.MoveKeeps` | src/runtime/scheduler.rs:709-743 | every step of the guest, the event loop, the queue task and the object keeps that invariant |
| `GateTheorems.OutputGate` | src/execution_context/durable_object.rs:127-191 | a response, alarm outcome, body chunk or gated call has left only if the host performed every storage op the guest made before it and no write among or before those failed |
| `GateTheorems.FrameGate` | src/runtime/bindings/durable_object.rs:205-246 | a socket frame that reached the host had every storage op before it performed |
| `GateTheorems.LostWriteHoldsBack` | src/runtime/scheduler.rs:503-510 | once a write failed or came after one that did, no gated output made after it has left in any later state |
| `GateTheorems.OnlyEarlierWritesHoldItBack` | src/runtime/scheduler.rs:726-743 | when the work before an output has ended without a failed write, its gate is open or its barrier is next in the queue and opens whatever the host answers; nothing later holds it |
| `GateTheorems.NothingWaitsForEver` | src/runtime/scheduler.rs:758-800 | from every state, whatever the host answers, the event loop and the queue task can end all their work, and then every gated message has its gate open or shut, open if every storage op made before it was committed |
| `GateTheorems.EveryHeldOutputCanLeave` | src/runtime/scheduler.rs:719-743 | with a host that fails no write there are steps of these two alone after which every held output and every gated call can leave |
| `GateTheorems.GatedKinds` | src/runtime/scheduler.rs:726-743 | over all runs an output kind always waits for the writes before it iff it is held or goes through the output gate |
| `GateTheorems.UngatedLeavesEarly` | src/runtime/scheduler.rs:726-743 | a call that takes no gate leaves in a run in which the write before it still waits |
| `GateTheorems.InputGate` | src/execution_context/durable_object.rs:600-675 | in an object that is not broken, a callback that is no storage result runs only with no read on its way, and an event is admitted only with no read on its way and nothing blocking |
| `GateTheorems.DisconnectPassesTheInputGate` | src/execution_context/durable_object.rs:945-956 | a run in which a fetch was answered with a streaming body, a second one reads the storage, the first client hangs up, and guest code runs with the read under way |
| `GateTheorems.OnlyDisconnectPassesTheInputGate` | src/execution_context/durable_object.rs:527-549 | with a read under way a step runs guest code for anything but a storage result iff it tells a fetch, answered and still streaming, that its client hung up |
| `GateTheorems.InputGateIsTight` | src/execution_context/durable_object.rs:945-956 | with a read under way the gate holds all other guest code back iff there is no such fetch to tell |
| `GateTheorems.FailureSticks` | src/js/durable_object.js:464-468 | a broken object stays broken and admits nothing, in any run |
| `GateTheorems.CountersAreExact` | src/js/durable_object.js:56-91 | the guest's counters are the reads and the bytes of the ops really on their way; ops are delivered once and in order; backlog and waiting frames are below their limit plus one op and one frame |
| `GateTheorems.ClosedGateGetsAResult` | src/execution_context/durable_object.rs:634-675 | a gate that a read holds closed comes to have a storage result behind it that it lets through, whatever the host answers, and that result ends the oldest op on its way |
| `DurableObject.ObjectContext.Call` | src/js/durable_object.js:56-75 | an op is refused past the backlog limit iff it has keys or values; otherwise it is sent and counted |
| `DurableObject.ObjectContext.Read` | src/js/durable_object.js:79-91 | the same, and the input gate closes until the op ends |
| `DurableObject.ObjectContext.GuestCalls` | src/js/durable_object.js:123-277 | every call of the guest, socket ops included, takes the step of the machine that is its own |
| `DurableObject.ObjectContext.ProcessCallback` | src/execution_context/durable_object.rs:649-672 | the callback at the index leaves `pending`, its op ends, and the guest code after it runs |
| `DurableObject.ObjectContext.DrainGated` | src/execution_context/durable_object.rs:634-675 | loses and duplicates nothing, keeps arrival order within storage results and within the others, leaves only other callbacks behind a closed gate and nothing behind an open one, and runs another callback only through an open gate |
| `DurableObject.ObjectContext.Answer` | src/execution_context/durable_object.rs:820-963 | in place, event by event: barrier, answer or giving up, telling of a client that hung up with the guest code that follows, and keeping the events that are not over, in order |
| `DurableObject.ObjectContext.TellGuest` | src/execution_context/durable_object.rs:945-956 | a guest is told once, only for an answered fetch whose body streams and whose client hung up |
| `DurableObject.AnswerMeaning` | src/execution_context/durable_object.rs:820-963 | in every state an object reaches: after a pass nothing is owed to any of its events; what left had its gate open, what was given up had it shut; a dropped event is over, a fetch with its handler and its body; and a kept one is not, unless guest code of the same pass ended it |
| `DurableObject.ObjectContext.AdmitEvents` | src/execution_context/durable_object.rs:509-577 | events are taken in order, as long as the gate lets them in and no longer |
| `DurableObject.ObjectContext.Turn` | src/execution_context/durable_object.rs:509-577 | a turn takes only steps of the machine, the guest code that `answer` runs included, and if it does not ask to be woken and the object is not broken, nothing that came can go in |
| `Transaction.RunTransaction` | src/js/durable_object.js:174-249 | for any calls awaited one by one: every answer is that of the direct call on the store with the earlier calls applied, puts cut where a value does not clone, but for deletes of undefined, whose exact answer is given; the one write gives the store all of them in both orders; a rollback or a throw writes nothing |
| `Transaction.CleanIsWhole` | src/js/durable_object.js:174-249 | where every put is clean that is direct application of the calls themselves |
| `Transaction.Txn.Perform` | src/js/durable_object.js:174-249 | one call, clean or not: the overlay shows what of it is kept applied to what it showed before, over any store, and puts and deletes stay disjoint |
| `Transaction.Txn.GetAll` | src/js/durable_object.js:174-249 | the merge of the overlay and one read of the missing keys is a get from what the transaction sees |
| `Transaction.Txn.Commit` | src/js/durable_object.js:174-249 | one write, or none when it threw, rolled back or changed nothing; the write gives what the transaction saw |
| `Transaction.OrderDoesNotMatter` | src/js/durable_object.js:174-249 | with disjoint puts and deletes the host may apply either first |
| `Transaction.PartialPut` | src/js/durable_object.js:174-249 | a put of many entries agrees with a direct put on every store iff all values clone or the first does not |
| `Transaction.DeleteCount` | src/js/durable_object.js:174-249 | the count is short of the direct one by exactly the keys that hold undefined |
| `Transaction.DeleteAny` | src/js/durable_object.js:174-249 | a delete of one key answers whether the key holds anything but undefined, so as a direct one iff it does not hold undefined |
| `PoolPolicy.Choose` | src/pool_policy.rs:70-107 | which outcome an owner gets, each with the exact state in which it is given; the evicted isolate is idle and has the smallest time in the snapshot |
| `PoolPolicy.FirstIdle` | src/pool_policy.rs:111-121 | the first idle isolates, as many as are past the ceiling or all of them |
| `PoolPolicy.WarmHit` | src/pool_policy.rs:135-143 | the first cached context of exactly the wanted key with a request left, or none when there is none |
| `PoolPolicy.CacheEvict` | src/pool_policy.rs:174-184 | an eviction iff the cache is full, of the context with the smallest time |
| `PoolPolicy.KeptIsTakeable` | src/pool_policy.rs:168-170 | a context is kept iff a later warm hit of its key can take it |
| `PoolPolicy.SupersededIsOlder` | src/pool_policy.rs:150-163 | a superseded context is of the same worker and no newer version, and never the wanted one |
| `PoolPolicy.ReplaceEachOther` | src/pool_policy.rs:150-163 | two deployments supersede each other iff they are of one version, one with an environment time and one without |
| `PoolPolicy.SupersededChain` | src/pool_policy.rs:150-163 | over a chain of any length: the first is not superseded by the last iff all are of one version and the two ends have no time or times that do not grow; with a time on every one it always carries |
| `PoolPolicy.ChainInACircle` | src/pool_policy.rs:150-163 | a chain of three that ends where it began |
| `Pool.PoolOverRuns` | src/pool.rs:275-361 | after any requests: no owner past its limit, the pool past its ceiling only by isolates in use and never without overcommit, no isolate past its slots, every slot is of a running request, and every running request still has an isolate of its owner |
| `Pool.EvictedIsIdleForLongest` | src/pool_policy.rs:70-107 | over all runs the evicted isolate is the one whose last request ended first iff no idle isolate was used entirely within the last use of the evicted one |
| `Pool.EvictsTheOneUsedLast` | src/pool.rs:543-547 | a run of a pool of two in which the isolate in use until last is evicted and one idle for longer stays |
| `Pool.DropsExactly` | src/pool.rs:353-361 | removing the chosen indices from the back drops those isolates and no other |
| `Pool.LoadsCount` | src/pool.rs:215-226 | what the policy counts in a snapshot is what the pool holds and what is idle |
| `IsolatePool.TaggedIsolate.TryAcquire` | src/pool.rs:44-60 | however often the weak exchange fails for nothing, a slot is taken iff one is free |
| `IsolatePool.TaggedIsolate.Load` | src/pool.rs:215-226 | the snapshot of an isolate |
| `IsolatePool.ThreadLocalPool.Acquire` | src/pool.rs:275-327 | takes the pool through that step of its runs and keeps it as runs leave it; the slot is of an isolate of the owner, an old one iff it is a cache hit, and the refusals are those of the policy |
| `IsolatePool.ThreadLocalPool.TakeSlot` | src/pool.rs:277-291 | the slot that the choice counted on is still free: the asserted exchange succeeds |
| `IsolatePool.ThreadLocalPool.Construct` | src/pool.rs:335-350 | a new isolate for the owner, whose first slot is the request's; that asserted exchange succeeds |
| `IsolatePool.ThreadLocalPool.ReclaimIdle` | src/pool.rs:353-361 | the reverse loop drops the chosen idle isolates, and no isolate in use |
| `IsolatePool.ThreadLocalPool.BeginOn` | src/pool.rs:543-547 | the time at which a request begins is noted on its isolate, and no other changes |
| `IsolatePool.ThreadLocalPool.ReleaseSlot` | src/pool.rs:423-434 | the slot of any isolate in use goes back and the pool is cut to its ceiling; the pool stays as runs leave it |
| `ContextCache.ContextsOverRuns` | src/pool.rs:544-816 | over any overlapping requests: every context is in exactly one of cached, in use or dropped; the cache is within its bound and every entry can be taken; a request runs in a context of exactly the deployment it asked for; no context serves more than its limit, or one |
| `ContextCache.SweepIsExact` | src/pool.rs:575-591 | the swap-remove sweep drops exactly the contexts the wanted deployment replaced, each once |
| `ContextCache.SweepSuperseded` | src/pool.rs:575-591 | the loop in place does that |
| `ContextCache.CachedContexts.Look` | src/pool.rs:544-595 | in place: the warm hit leaves the cache, then exactly the contexts its deployment replaced; the hit has the wanted key and is not swept |
| `ContextCache.CachedContexts.Keep` | src/pool.rs:680-703 | in place: the context goes in, and one goes out iff the cache was full, the one unused for longest |
| `ContextCache.BeginKeeps` | src/pool.rs:544-595 | a request that begins keeps the invariant and leaves no context in the cache that its deployment replaced |
| `ContextCache.EndKeeps` | src/pool.rs:656-706 | a request that ends keeps it, whether its context is stored in place of the oldest or dropped |
| `ContextCache.OlderComesBack` | src/pool.rs:746-816 | over any run after a request of a deployment began: no context it replaced is in the cache in any later state iff no later step ends a request of a replaced deployment, well and with a reuse left; no request that begins brings one back |
| `ContextCache.AnOlderContextIsBack` | src/pool.rs:746-816 | a run in which a context of version 1 is in the cache after a request of version 2 has swept |
| `TurnSafety.Turn.Begin` | src/security/turn.rs:37-41 | the turn is the request's and a termination left over is cancelled |
| `TurnSafety.Turn.End` | src/security/turn.rs:44-47 | the turn is free and the memory flag is given once |
| `TurnSafety.Turn.Terminate` | src/security/turn.rs:52-61 | terminates iff the request holds the turn |
| `TurnSafety.ReachedKeeps` | src/execution_context.rs:1008-1129 | the invariant of turns, guards, flags and ended requests holds after any steps of any threads |
| `TurnSafety.OnlyItsOwnLimitCuts` | src/security/turn.rs:37-104 | while a request holds the turn, V8 terminates only because a limit of that request fired in that turn |
| `TurnSafety.MemoryIsChargedToItsTurn` | src/security/turn.rs:73-104 | the requests charged with a memory limit are exactly those whose turns hit one |
| `TurnSafety.OnlyItsOwnLimitEnds` | src/execution_context.rs:966-976 | a request is ended only by a limit of its own |
| `TurnSafety.MarkedRunsNothing` | src/execution_context.rs:1053-1062 | a request marked between its turns processes no callback in the event loop any more, whatever else runs |
| `TurnSafety.MarkedEnds` | src/execution_context.rs:1053-1062 | and its next turn of the event loop, whenever it ends, puts it among the ended for good |
| `TurnSafety.CutEndsTheRequest` | src/execution_context.rs:1106-1126 | a turn that was cut ends its request, except by the guard of an earlier turn, and then iff V8 is still terminating or something else marked it |
| `TurnSafety.GuardOfAnEarlierTurnCuts` | src/security/timeout_guard.rs:69-82 | a run in which the guard of a first turn cuts the second turn and the request waits on |
| `CpuBudget.CpuEnforcer.BeginTurn` | src/security/cpu_enforcer.rs:80-90 | the start of the turn is noted |
| `CpuBudget.CpuEnforcer.EndTurn` | src/security/cpu_enforcer.rs:93-113 | the time of the turn is taken from the budget, no further than zero, and an empty budget marks the request |
| `CpuBudget.CpuEnforcer.Refill` | src/security/cpu_enforcer.rs:117-121 | the whole budget again, unless the request is marked |
| `CpuBudget.OnlyItsOwnTurnsCount` | src/security/cpu_enforcer.rs:80-125 | in any interleaving what is left is the budget less what the request's own turns burned since it was full, floored at zero; it is marked iff its timer fired or they burned it all; all charges together are within the clock |
| `CpuBudget.SpentStaysSpent` | src/security/cpu_enforcer.rs:117-121 | a spent budget stays spent and marked through any run, refills included |
| `CpuBudget.OthersAreFree` | src/security/turn.rs:73-104 | a step of another request, or time it burns, changes nothing of this one |
| `TimeoutWatchdog.SplitIsExact` | src/security/timeout_guard.rs:64-67 | the split of the map takes exactly the deadlines that the clock has reached |
| `TimeoutWatchdog.Deadlines.Add` | src/security/timeout_guard.rs:144-151 | the map stays ordered, and the watchdog is notified iff the new deadline is the earliest |
| `TimeoutWatchdog.Deadlines.Withdraw` | src/security/timeout_guard.rs:179-185 | the deadline is gone and the rest stays in order |
| `TimeoutWatchdog.Deadlines.TakeDue` | src/security/timeout_guard.rs:64-67 | all that is due leaves the map, and nothing else |
| `TimeoutWatchdog.WatchdogOverRuns` | src/security/timeout_guard.rs:60-95 | in every interleaving a sleeping watchdog that nobody notified wakes by every deadline in the map plus its lag; none fires early; each is in the map, withdrawn or fired at most once in all |
| `TimeoutWatchdog.WithdrawnNeverFires` | src/security/timeout_guard.rs:179-185 | a withdrawn deadline never fires in any later run |
| `TimeoutWatchdog.SleepOutlastsByItsLag` | src/security/timeout_guard.rs:84-93 | the sleep outlasts the earliest deadline by exactly the time between the clock reading and its start |
| `TimeoutWatchdog.SleepsPastADeadline` | src/security/timeout_guard.rs:84-93 | a run in which the watchdog sleeps past the earliest deadline by a lag of 2 |
| `CpuWatchdog.NeverSleepsThroughATurn` | src/security/cpu_enforcer.rs:437-465 | in every interleaving of arming, disarming and parking, if the watchdog is blocked in its wait and a slot is armed, that slot's thread is still between arming and notifying, and the wake lock is not the watchdog's |
| `CpuWatchdog.ArmerWakes` | src/security/cpu_enforcer.rs:448-454 | the rest of that thread's own way notifies the sleeping watchdog |
| `ResponseStream.StreamChannel.TryWriteChunk` | src/runtime/stream_manager.rs:121-146 | a write in place, with its three refusals |
| `ResponseStream.StreamChannel.CloseStream` | src/runtime/stream_manager.rs:191-197 | the sending side goes, and the receiving side unless the host took it |
| `ResponseStream.TheHostReadsThePrefix` | src/js/stream_body.js:83-137 | the host reads an unbroken beginning of the guest's non-empty chunks and their end: Done only after all of a body that ended, an error only after all of one that threw, neither for a closed stream; buffered data is within the mark |
| `ResponseStream.TheEndFits` | src/runtime/stream_manager.rs:76-88 | the end of the body always has its slot while both sides are there |
| `ResponseStream.TheRetrySucceeds` | src/runtime/scheduler.rs:241-262 | a write retried after a wait that found room succeeds while the stream is open |
| `ResponseStream.WritesWithinTheMark` | src/runtime/stream_manager.rs:121-146 | data is taken iff both sides are there and the buffer has fewer chunks than the mark |
| `WebSocketPair.SocketTask.TurnEarly` | src/runtime/scheduler.rs:1098-1126 | one turn of the loop before the connection, in place, is a step of the machine; the early messages are flushed in order |
| `WebSocketPair.SocketTask.TurnOpen` | src/runtime/scheduler.rs:1155-1217 | one turn of the loop of a connected socket, in place, is a step of the machine |
| `WebSocketPair.SocketTask.Run` | src/runtime/scheduler.rs:1079-1217 | the loop ends a burst after finitely many such steps, when none changes anything more |
| `WebSocketPair.TheWireIsAPrefix` | src/runtime/scheduler.rs:1079-1217 | the frames on a connection are the guest's messages in order up to some point, early ones included, then at most one close frame |
| `WebSocketPair.TheGuestHearsAPrefix` | src/runtime/scheduler.rs:1146-1217 | the guest hears what the peer said, in order and nothing else but one close event of the socket's own; a close event is the last |
| `WebSocketPair.NothingBeforeAccept` | src/runtime/scheduler.rs:1205-1214 | in a run in which the guest never accepts it hears at most one event, a close, whatever the peer says |
| `WebSocketPair.OverIsOver` | src/runtime/scheduler.rs:1146-1217 | a socket that is over sends and tells nothing more |
| `WebSocketPair.TheGuestIsTold` | src/runtime/scheduler.rs:1079-1217 | in every run the guest has heard a close event, with the code of the way the socket ended, iff it ended in any way but that its channel was dropped while connected without a close of the guest |
| `WebSocketPair.CloseComesAfterAll` | src/runtime/scheduler.rs:1099-1202 | when a turn takes a close of the guest, all it sent is on the wire with the close frame last iff the socket is connected before that turn; otherwise the kept messages, which are all it sent, are dropped and nothing goes out; the guest hears its code either way |
| `WebSocketPair.TakesIt` | src/runtime/scheduler.rs:1099-1126 | a turn takes the close at the head of the channel iff the socket is not over, not cancelled and has no upgrade that is decided |
| `WebSocketPair.ClosedBeforeTheResponse` | src/runtime/scheduler.rs:592-596 | after a close that comes before the connection is handed over nothing goes out in any later run |
| `WebSocketPair.AnEarlyCloseLosesAll` | src/runtime/scheduler.rs:1115-1122 | a run in which a message is sent, the socket is closed, the message is lost and the guest hears its code |
| `WebSocketPair.Never1006OnTheWire` | src/runtime/scheduler.rs:1163-1202 | 1006 never goes on the wire (section 7.4.1 of RFC 6455), in any run with the closes the guest can make |
| `WebSocketPair.GuestCodes` | src/runtime/bindings/websocket.rs:398-414 | the close codes a guest can send are 1000 and 3000 to 4999, and 0 iff it passed NaN |
| `WebSocketPair.AtMostOnePairAttached` | src/runtime/scheduler.rs:542-596 | a request attaches at most one pair, none before its response is read, and after that no other pair of it has a channel |
| `WebSocketPair.PairTable.MakePair` | src/runtime/scheduler.rs:542-559 | a pair made before the response can be carried by it; a later one has no channel |
| `WebSocketPair.PairTable.ReadResponse` | src/runtime/scheduler.rs:561-580 | the pair of the response is attached and the channels of the others are dropped |
| `Callbacks.LateAnswersAreHarmless` | src/runtime/mod.rs:25-56 | over any requests and answers, a callback is called only during the request that registered it, and once: one side of a pair, or the reject right after its resolve threw |
| `Callbacks.FirstAnswerSettles` | src/runtime/dispatch.rs:102-146 | the first answer to a waiting pair calls its reject when it failed and its resolve otherwise, and takes the pair out of the tables |
| `Callbacks.OldNumbersFindNothing` | src/execution_context.rs:1565-1572 | an answer to a callback that is gone finds nothing and changes nothing, after any further registrations |
| `Callbacks.ResetMakesThemOld` | src/execution_context.rs:1537-1575 | a reset makes every number given so far such a one |
| `Callbacks.CallbackTables.RegisterWithError` | src/runtime/bindings/fetch.rs:115-150 | a pair is registered under a number never given before |
| `Callbacks.CallbackTables.Take` | src/runtime/mod.rs:33-34 | both sides leave the tables, whichever answers |
| `Callbacks.CallbackTables.Reset` | src/execution_context.rs:1565-1572 | the tables are empty and the counter goes on |
| `ExternalMemory.Isolate.Enter` | src/gc/js_lock.rs:72-100 | what is pending is reported when the lock is taken |
| `ExternalMemory.JsLock.constructor` | src/gc/js_lock.rs:72-100 | a lock reports what is pending, becomes the thread's current one and keeps the one before it |
| `ExternalMemory.JsLock.Drop` | src/gc/js_lock.rs:139-144 | the lock before it is current again |
| `ExternalMemory.ExternalMemoryGuard.Adjust` | src/gc/external_memory.rs:87-102 | a change goes to the isolate that is locked, or else waits with the guard's own |
| `ExternalMemory.ExternalMemoryGuard.Set` | src/gc/external_memory.rs:107-109 | the amount is the new one and the difference is told in the same way |
| `ExternalMemory.ExternalMemoryGuard.Drop` | src/gc/external_memory.rs:117-130 | the whole amount is taken back in the same way |
| `ExternalMemory.StepKeepsBalance` | src/gc/external_memory.rs:54-130 | a step keeps what all isolates know equal to what all guards hold iff it is not a change of a guard without isolate on a thread without lock |
| `ExternalMemory.MemoryIsConserved` | src/gc/external_memory.rs:54-130 | for guards made under locks, reported plus pending over all isolates is what the live guards hold, in any run with nested locks |
| `ExternalMemory.EachIsolateIsConserved` | src/gc/js_lock.rs:72-144 | a step keeps the account of every isolate straight iff it touches a guard under the lock of its own isolate or under none |
| `ExternalMemory.EachIsolateOverRuns` | src/gc/js_lock.rs:72-144 | over every run of such steps, what each isolate was told and has yet to be told is what the live guards made under it hold |
| `ExternalMemory.TheFirstStrayBreaksIt` | src/gc/external_memory.rs:87-130 | and the first step of a run that is not one leaves some isolate wrong |
| `ExternalMemory.MadeWithoutALockIsLost` | src/gc/external_memory.rs:54-69 | a guard made without a lock is missing from the count by its amount |
| `ArrayBufferLimit.CustomAllocator.Allocate` | src/security/array_buffer_allocator.rs:84-115 | alone, a call is denied iff the bytes do not fit, and then the counter is as it was |
| `ArrayBufferLimit.CustomAllocator.Free` | src/security/array_buffer_allocator.rs:145-151 | the bytes are given back |
| `ArrayBufferLimit.LimitOverRuns` | src/security/array_buffer_allocator.rs:84-151 | in every interleaving of add, load, rollback and free the counter is the bytes held plus the attempts under way, less whole words; without a wrap it is exactly that and the bytes held are within the limit |
| `ArrayBufferLimit.DenialIsOnTheSum` | src/security/array_buffer_allocator.rs:91-104 | an attempt is denied iff all that is held and asked for is over the limit, and leaves the counter at what the others hold and ask for |
| `ArrayBufferLimit.SmallAttemptsKeepTheLimit` | src/security/array_buffer_allocator.rs:84-151 | the limit holds in every interleaving of a number of threads with attempts of a bounded size, if the limit and one attempt of each fit in a word |
| `ArrayBufferLimit.TheCounterAloneWouldWrap` | src/security/array_buffer_allocator.rs:84-115 | why a bound on the sizes is needed: the check of the counter alone would admit a request of a word less what is held, which the program cannot make |

## Left out

- V8 itself: a step of guest code is any list of calls, and the reactions of a settled promise run before the next look at a gate.
- Marshalling between V8 values and Rust types, headers, environments, and the crypto, compression, URL and text bindings: no protocol in them, only easy members.
- The values inside storage answers and the `list` options: the host's answers are arbitrary results, except where a store is given to it.
- What `serve` does between turns: dropping events whose callers stopped waiting, and the idle, gate and drain timers.
- A response that the host cannot read: such a fetch gives its caller up without a barrier, and nothing of it leaves.
- Socket events delivered to a Durable Object and their slots in flight, and the op that attaches an upgraded socket to it: the class has events of the mailbox only; the socket ops of the guest are in the machine.
- The relay of a socket that another worker's response handed over: outside the output gate and outside the pairs of a request.
- Stream ids across resets, request bodies and native streams passed through: a stream is modelled within one request.
- Loops that never end (the event loop, the poll of a request, the two watchdogs, the body pump) are modelled as their steps on values: their local variables and the aliasing of shared handles are not captured.
- The fair queue of requests for the V8 lock: one poll takes it and gives it back.
- Poisoned mutexes, panics, cancelled futures, a failing CPU clock, details of POSIX timers and signals, memory limits hit outside a turn.
- Wrap-around of 64-bit counters other than that of the array buffers: ids and amounts are unbounded.
- Concurrent calls inside one transaction: its calls are awaited one after the other.
- WatchdogOverRuns: bounds the wake by the deadline plus the lag of the sleep; that the host schedules the thread at its wake time is not modelled.
- ArmerWakes: the armed thread's own steps are enough once the wake lock is free; that the scheduler lets it run is not modelled.
