# Verification of the zuul lock service

A Dafny 4.11 model of the hard parts of zuul, with proofs that hold for every input,
every run and every interleaving of the model. Zuul is a lock and election service:
a replicated state machine of locks and leases, on top of a Raft runtime that
schedules snapshot work, tracks requests, feeds committed entries to the state
machine and moves data between threads over queues and small channels.

`dafny verify dfyconfig.toml` checks the whole project. Nothing here runs the
service.

## What is modelled

| area | modules | the hard question |
|---|---|---|
| locks, elections, leases | `LockState`, `LockInvariant`, `LockDrop`, `LockRuns`, `LockExclusion`, `LockEvents`, `LockReplies`, `LockSnapshot`, `LockMachine`, `SortedStrings` | is a lock exclusive, fenced, fair and the same on every replica, also after a snapshot? |
| snapshot workers | `SnapshotPool`, `SnapshotPoolRuns`, `SnapshotPoolProgress`, `SnapshotPoolMachine`, `SnapshotHandshake` | why can none of the "cannot happen" panics happen, in any interleaving, and does every job get done? |
| closing nodes | `ClosePool` | is every stopped node destroyed, one incarnation of a cluster at a time? |
| requests | `ProposalShard`, `ReadIndex`, `ReadIndexRuns`, `ReadIndexAnswers`, `ReadIndexMachine`, `SingleSlot` | does every accepted request get exactly one, true, result? |
| step and apply | `ApplyPipeline`, `StepTrace`, `LogCompaction` | does the state machine see exactly the log, what is sent before it is persisted, can a restarted node always recover? |
| queues and wakeups | `EntryQueue`, `Wakeup`, `NodeLoading`, `Quiesce` | do the fast structures behave as the plain ones they stand for? |
| encodings | `Colfer`, `ColferLayout`, `ColferCodec`, `Wire`, `WireMessages`, `WireSession`, `WireEntries`, `WireCount`, `WireCodec` | is everything read back, and on which data does reading go out of bounds or not end? |
| authorization | `KeyPath`, `Authz` | what exactly does a path prefix cover? |

`Basics` and `Pools` hold machine words and small shared types. Most areas have two parts: state
and steps as functions, over which invariants and run theorems are proved, and the
imperative form the source has (classes with the source's fields, loops with their
invariants), each method proved against those functions. Concurrent code is a state
machine whose steps are the source's critical sections and channel operations; a run
is any sequence of enabled steps. A panic of the source is an outcome of a step, so
"unreachable" is a theorem.

## Where the code falls short of what it is for

Each of these is a lemma with a concrete case and one that says exactly when the
property does hold.

- A lease for the client named `""` makes a held lock look free
  (`LockExclusion.EmptyClientBreaksExclusion`, `LockExclusion.ExclusiveIffNamed`). The
  server refuses empty client ids before it proposes a command.
- A lease deadline that does not fit 64 bits wraps and the lease ends early
  (`LockSnapshot.LeaseEndsEarly`, `LockSnapshot.RenewalLasts`).
- `Entry.Size` admits an entry at the size limit that reading then refuses
  (`Colfer.LimitIsMet`, `Colfer.RoundTrip`).
- A node that goes quiet tells its peers before the round persists anything
  (`StepTrace.QuietNodeOvertakes`, `StepTrace.OvertakesIffQuiet`).
- Reading a session adds lengths to positions unchecked and panics when the sum wraps
  (`WireSession.WrappingPanics`, `WireSession.ReturnsIff`).
- Counting the entries of a raft message takes negative lengths and can go round for
  ever (`WireCount.RoundForever`, `WireCount.CountIsLoop`, `WireCount.ForeverIffReturns`).
- A proposer that reads the tick and is overtaken by a collection before it inserts its
  request leaves an overdue request pending (`ProposalShard.LateProposalOutlivesCollection`,
  `ProposalShard.GcBoundIff`).
- A read whose batch is filed after `close` is never answered
  (`ReadIndexRuns.LostRead`, `ReadIndexRuns.OnlyTakenReadsAreLost`).
- Starting another replica of a cluster while a worker still has the old one makes that
  worker panic (`NodeLoading.OtherReplicaClashes`, `NodeLoading.StartIsSafeIff`).
- Trimming committed entries panics at the last 64-bit index where it need not
  (`ApplyPipeline.WrappingDiffersAtTheEnd`, `ApplyPipeline.WrappingAgrees`).
- Ten election timeouts wrap beyond 64 bits, and a node goes quiet far too soon
  (`Quiesce.FourTicks`, `Quiesce.RestsIff`).

## Assumptions

- Request keys and read contexts are fresh, and raft confirms a read context only after
  it was given it.
- The logical tick never decreases and stays below 2^64; what a thread has read of it
  may be old.
- A proposal shard and the read tracker are each closed once.
- The rsm task queues are first-in first-out.
- A batch of committed entries has consecutive indexes, fewer than 2^63 of them; the
  batches a node is handed come from one log.
- The snapshot table lists its records in ascending order.
- Data to be read is shorter than 2^63 bytes, as the length of any slice is.
- The pool's shutdown is its leaving and the end of each busy worker, one after the other.
- A partitioner returns a number below its count, and the count is at most 64.
- Loading a node table, with its `loaded` and `offloaded` calls, is one step.
- The node table the snapshot pool loads files each node under its own cluster id.
- Maps iterate in some order; where the source sorts keys first, so does the model.
- Joining a byte's bits to a number whose bits all lie below them is addition; that is
  how the codecs' shifts and ors are written here.

## Model

| member | source | states |
|---|---|---|
| `LockExclusion.MutualExclusion` | internal/raft/fsm/locks.go:10-118 | after any log of commands from an empty shard, no two clients believe they hold one key, and what clients believe is exactly what the lock table says |
| `LockExclusion.BeliefIsOwnership` | internal/raft/fsm/locks.go:10-118 | along any log, from any state that satisfies the invariant, the clients' beliefs, built only from replies and events, equal the table's holders |
| `LockRuns.StepKeepsInv` | internal/raft/fsm/fsm.go:119-162 | every command but a lease for the client named "" keeps the invariant linking locks, queues and lease indexes; that one breaks it |
| `LockRuns.RunKeepsInv` | internal/raft/fsm/fsm.go:119-162 | every log without such a lease keeps the invariant |
| `LockExclusion.EmptyClientBreaksExclusion` | internal/raft/fsm/leases.go:7-20 | from any state, after a lease for the client named "" every key that is not held is granted to that client and, without being given up, to any other client that asks |
| `LockExclusion.ExclusiveIffNamed` | internal/raft/fsm/leases.go:7-20 | from any state that satisfies the invariant, beliefs stay exclusive over every continuation that names its clients if and only if the command is not a lease for the client named "" |
| `LockRuns.SupersededTokenIsDead` | internal/raft/fsm/locks.go:74-92 | fencing: once a key is no longer held under a token it never is again, whatever is committed later, and every command presenting it is refused and changes nothing |
| `LockRuns.TokensIncrease` | internal/raft/fsm/locks.go:49-72 | a key seen held at two points of a log is the same ownership or has a larger token |
| `LockRuns.NoOvertaking` | internal/raft/fsm/locks.go:94-118 | first come, first served: while a waiter stays queued, only those already ahead of it are ever ahead of it or get the key |
| `LockRuns.WrongTokenRefused` | internal/raft/fsm/locks.go:74-157 | a release, resignation or proclamation with a token the key is not held under changes nothing and publishes nothing |
| `LockReplies.RepliesCarryRevision` | internal/raft/fsm/fsm.go:119-162 | every command but no command is answered, with its own revision |
| `LockReplies.AskAnswers` | internal/raft/fsm/locks.go:10-47 | a client that asks for a key is told that it has no lease, that it has the key, that another has it, or that it is queued, if and only if the tables say so; a refused try names the holder |
| `LockReplies.GrantedIsHeld` | internal/raft/fsm/locks.go:10-72 | a grant answers with the token and value the key is then held under: a new token and the value asked for if it was free, those it had if it was the client's already; that token releases it |
| `LockReplies.QueuedIsInQueue` | internal/raft/fsm/locks.go:10-47 | a queued client stands at the position it was told: where it was if it waited already, and then nothing changes, else last with the value it asked for; holder, token and value of the key stay |
| `LockReplies.RefusalChangesNothing` | internal/raft/fsm/locks.go:10-157 | a command that is refused changes nothing but the revision and publishes nothing |
| `LockReplies.ReleaseAnswers` | internal/raft/fsm/locks.go:74-92 | a release is answered Released if and only if the client holds the key under the token, StaleToken under another one, NotHolder if it does not hold it |
| `LockReplies.ReleasedGoesOn` | internal/raft/fsm/locks.go:74-118 | a released key goes to the head of its queue, with a new token and the value it queued with, or is free if nobody waits |
| `LockReplies.CancelAnswers` | internal/raft/fsm/locks.go:120-137 | leaving a queue is answered Released if and only if the client was in it; it is then out of it and the others stay in order |
| `LockReplies.ProclaimAnswers` | internal/raft/fsm/locks.go:139-157 | a proclamation replaces the value, keeps holder and token, and publishes it, if and only if the client holds the key under the token |
| `LockReplies.LeaseAnswers` | internal/raft/fsm/leases.go:7-20 | a lease is opened or extended with the time to live asked for and the deadline answered; what the client holds and awaits stays |
| `LockReplies.RenewalAnswers` | internal/raft/fsm/leases.go:23-33 | a renewal moves the deadline by the lease's own time to live, if there is a lease |
| `LockReplies.EndAnswers` | internal/raft/fsm/leases.go:36-63 | revoking and expiring end a lease if and only if there is one, and expiring only at or after its deadline; each answers which |
| `LockDrop.DropLeaseEffect` | internal/raft/fsm/leases.go:65-86 | dropping a lease passes on each key it held, once, to the queue's head or to nobody, takes the client out of every queue, touches no other key and keeps the invariant |
| `LockDrop.ReleaseEachDrops` | internal/raft/fsm/leases.go:65-86 | passing on the held keys one after the other affects each of them exactly once |
| `LockDrop.DequeueEachDrops` | internal/raft/fsm/leases.go:65-86 | leaving the queues one after the other removes the client from each and nothing else |
| `LockEvents.EventsReplayOwnership` | internal/raft/fsm/fsm.go:177-182 | an observer that applies every published event to the ownership table it started from always has the current table |
| `LockEvents.TokensOutlastLog` | internal/raft/fsm/fsm.go:119-162 | tokens handed out and tokens still owed to waiters never exceed twice the commands applied, so the 64-bit counter cannot wrap within 2^63 commands |
| `LockSnapshot.RoundTrip` | internal/raft/fsm/fsm.go:418-490 | restoring a snapshot gives back the state it was taken from if and only if its lease indexes agreed with its lock table |
| `LockSnapshot.InvIndexesExact` | internal/raft/fsm/fsm.go:449-490 | in every state that satisfies the invariant they do agree |
| `LockSnapshot.CatchUp` | internal/raft/fsm/fsm.go:418-490 | a replica caught up by snapshot at any point of the log ends in the same state and publishes the same events as one that applied everything |
| `LockSnapshot.ExpiryIsExact` | internal/raft/fsm/leases.go:49-63 | an expiry stamped before the deadline changes nothing; at or after it the client holds and awaits nothing and is forgotten, and each key went to its next waiter |
| `LockSnapshot.RenewalLasts` | internal/raft/fsm/fsm.go:184-188 | a renewal protects a lease for its whole time to live if and only if the deadline fits a signed 64-bit number |
| `LockSnapshot.LeaseEndsEarly` | internal/raft/fsm/fsm.go:184-188 | a log from the empty shard after which a lease renewed for 292 years expires at once |
| `LockInvariant.ReleaseKeeps` | internal/raft/fsm/locks.go:74-118 | releasing keeps the invariant, whoever is promoted |
| `LockInvariant.CancelKeeps` | internal/raft/fsm/locks.go:120-137 | leaving a queue keeps the invariant |
| `LockInvariant.PublishKeeps` | internal/raft/fsm/locks.go:139-157 | replacing an election's value keeps the invariant |
| `LockInvariant.PromoteHead` | internal/raft/fsm/locks.go:94-118 | promotion picks the first waiter that still has a lease, or frees the key |
| `LockMachine.Fsm.GrantKey` | internal/raft/fsm/locks.go:49-72 | the key, the client's index, the token counter and the events are what the state function says |
| `LockMachine.Fsm.PromoteNext` | internal/raft/fsm/locks.go:94-118 | walks the queue in place until a waiter with a lease is found; the tables become what `Promote` says |
| `LockMachine.Fsm.AcquireKey` | internal/raft/fsm/locks.go:10-47 | grants, queues or refuses exactly as the state function says, with its reply |
| `LockMachine.Fsm.ReleaseKey` | internal/raft/fsm/locks.go:74-92 | refuses or frees and promotes as the state function says |
| `LockMachine.Fsm.CancelWaiting` | internal/raft/fsm/locks.go:120-137 | takes the client out of the queue and the key out of the client's index |
| `LockMachine.Fsm.ProclaimValue` | internal/raft/fsm/locks.go:139-157 | replaces the value only for the holder with the current token |
| `LockMachine.Fsm.Position` | internal/raft/fsm/locks.go:159-166 | finds the client's 1-based place in a queue, or 0 |
| `LockMachine.Fsm.OpenLease` | internal/raft/fsm/leases.go:7-20 | opens a lease or extends an existing one |
| `LockMachine.Fsm.RenewLease` | internal/raft/fsm/leases.go:23-33 | extends the deadline by the lease's time to live, in 64 bits |
| `LockMachine.Fsm.PassOn` | internal/raft/fsm/leases.go:65-86 | the loop over held keys, in sorted order |
| `LockMachine.Fsm.LeaveQueues` | internal/raft/fsm/leases.go:65-86 | the loop over awaited keys, in sorted order |
| `LockMachine.Fsm.Drop` | internal/raft/fsm/leases.go:65-86 | both loops and the lease's removal |
| `LockMachine.Fsm.RevokeLease` | internal/raft/fsm/leases.go:36-46 | drops a lease if there is one |
| `LockMachine.Fsm.ExpireLease` | internal/raft/fsm/leases.go:49-63 | drops a lease only if it is due |
| `LockMachine.Fsm.Apply` | internal/raft/fsm/fsm.go:119-162 | one command: the tables, reply and events are those of `Step`; an empty command is an error |
| `LockMachine.Fsm.TakeSnapshot` | internal/raft/fsm/fsm.go:418-446 | the snapshot written is `Save` of the state, rows in sorted order |
| `LockMachine.Fsm.Restore` | internal/raft/fsm/fsm.go:449-490 | the tables rebuilt are `Load` of the snapshot, lease indexes recomputed from the locks |
| `LockMachine.Fsm.RebuildIndexes` | internal/raft/fsm/fsm.go:449-490 | the loop over restored locks leaves every lease with exactly the keys it holds and awaits |
| `SortedStrings.SortedKeys` | internal/raft/fsm/fsm.go:492-505 | lists a map's keys in ascending order, each once |
| `SortedStrings.SortedIsUnique` | internal/raft/fsm/fsm.go:492-505 | there is only one such list, so every replica walks its tables in the same order |
| `SnapshotPoolRuns.PoolIsSafe` | internal/dragonboat/engine.go:509-633 | in every state reachable by interleaving pool and workers: no step panics, no worker blocks reporting, each worker has exactly one job in flight if it is marked busy and none otherwise, a cluster has at most one kind of work, and its busy workers are as many as its saving, recovering and streaming entries say |
| `SnapshotPoolRuns.StepKeeps` | internal/dragonboat/engine.go:256-273 | every step of pool or worker keeps the books and raises no panic |
| `SnapshotPool.CompleteKeeps` | internal/dragonboat/engine.go:509-543 | taking a completion token un-books exactly one job of the right kind; none of the four panics there is reachable |
| `SnapshotPool.DispatchKeeps` | internal/dragonboat/engine.go:622-633 | starting a job the scheduler may start books it; neither "busy worker", "saving again", "recovering again" nor "multiple jobs" is reachable |
| `SnapshotPool.PassKeeps` | internal/dragonboat/engine.go:643-665 | one scheduling pass never fails and keeps the books |
| `SnapshotPool.BusyCount` | internal/dragonboat/engine.go:581-633 | the busy workers on a cluster number its saving, recovering and streaming entries |
| `SnapshotPoolRuns.ScheduleSweeps` | internal/dragonboat/engine.go:635-665 | `schedule` ends, with the pending list empty, no worker idle or nothing startable, and every job that left the list was started once or dropped as stale or unknown |
| `SnapshotPoolRuns.PassShrinks` | internal/dragonboat/engine.go:643-671 | a pass that does something takes exactly one job off the list |
| `SnapshotPoolRuns.TablesTell` | internal/dragonboat/engine.go:560-633 | a cluster is in none of the tables if and only if nobody has a job in flight for it, and neither saving nor recovering if and only if whoever has one streams it |
| `SnapshotPoolRuns.PassActs` | internal/dragonboat/engine.go:643-671 | a pass does nothing if and only if every worker is busy or no pending job is ready, told from the jobs in flight: a save or recovery needs its cluster to itself, a stream only that nobody saves or recovers it; else it starts the first ready job on the first idle worker, or drops it if its node is gone or restarted |
| `SnapshotPoolRuns.ScheduleLeavesNothingReady` | internal/dragonboat/engine.go:635-665 | after `schedule`, while a worker is idle no pending job is ready |
| `SnapshotPoolProgress.EveryJobIsDone` | internal/dragonboat/engine.go:509-671 | after any run, however pool and workers take turns, they stop after a bounded number of steps; then nothing is pending or in flight, and every job was started, or dropped, as often as it was ever picked up |
| `SnapshotPoolProgress.RunAccounts` | internal/dragonboat/engine.go:509-671 | over any run a job that was pending or picked up is still pending, or was started or dropped, as often |
| `SnapshotPoolProgress.StepSpends` | internal/dragonboat/engine.go:256-273 | every step of pool or worker, other than picking up and reloading, brings the jobs closer to their end |
| `SnapshotPoolProgress.NothingPressingIsDone` | internal/dragonboat/engine.go:509-671 | when there is no such step nothing is pending or in flight |
| `SnapshotPoolProgress.PassHeedsReload` | internal/dragonboat/engine.go:560-665 | once the nodes are reloaded, a pass starts a job only if the table just loaded has the incarnation it is for, and drops one only if it has not |
| `SnapshotPoolMachine.WorkerPool.GetWorker` | internal/dragonboat/engine.go:362-369 | the first idle worker, or none |
| `SnapshotPoolMachine.WorkerPool.Completed` | internal/dragonboat/engine.go:509-543 | table by table what `Complete` says, or its panic |
| `SnapshotPoolMachine.WorkerPool.StartWork` | internal/dragonboat/engine.go:591-633 | table by table what `Start` says, or its panic |
| `SnapshotPoolMachine.WorkerPool.ScheduleTask` | internal/dragonboat/engine.go:725-734 | starts the job and fills the worker's channel unless the node was restarted |
| `SnapshotPoolMachine.WorkerPool.RemoveFromPending` | internal/dragonboat/engine.go:667-671 | takes out one place of the list |
| `SnapshotPoolMachine.WorkerPool.ScheduleWorker` | internal/dragonboat/engine.go:643-665 | the loop does what `SchedulePass` says |
| `SnapshotPoolMachine.WorkerPool.ScheduleAll` | internal/dragonboat/engine.go:635-641 | the loop ends exhausted, as `Schedule` says |
| `SnapshotPoolMachine.WorkerPool.WorkerTake` | internal/dragonboat/engine.go:256-269 | a worker receives its job |
| `SnapshotPoolMachine.WorkerPool.WorkerFinish` | internal/dragonboat/engine.go:271-273 | a worker reports completion without blocking |
| `ClosePool.PoolIsSafe` | internal/dragonboat/engine.go:909-975 | in every reachable state: no step panics, no worker blocks, the clusters being processed are exactly the distinct values of the busy table, no two workers close one cluster, every request accepted is pending, in a worker's hands or carried out as often as it was accepted, and an idle pool has carried out all of them |
| `ClosePool.StepKeeps` | internal/dragonboat/engine.go:760-776 | every step of pool or worker keeps the invariant and raises no panic |
| `ClosePool.PassKeeps` | internal/dragonboat/engine.go:948-966 | one pass never fails and conserves the requests |
| `ClosePool.SweepIsExhaustive` | internal/dragonboat/engine.go:935-966 | `schedule` ends with every worker busy or every pending request for a cluster some worker is closing, having only moved pending requests to idle workers |
| `ClosePool.SweepConserves` | internal/dragonboat/engine.go:935-981 | pending requests and those in workers' hands are, together, the same before and after `schedule` |
| `ClosePool.NeverWaitsInVain` | internal/dragonboat/engine.go:855-907 | after `schedule`, a pool that is not idle has a busy worker: the shutdown loop never waits for a token that cannot come |
| `ClosePool.PassActs` | internal/dragonboat/engine.go:926-966 | a pass does nothing if and only if every worker is busy or every pending request is for a cluster some worker is closing; else it starts the first other one on the first idle worker, and those before it move behind the rest |
| `ClosePool.StepSpends` | internal/dragonboat/engine.go:760-776 | every step of pool or worker, other than accepting, brings the requests exactly one step closer to their end |
| `ClosePool.NothingPressingIsIdle` | internal/dragonboat/engine.go:855-907 | when there is no such step nothing is pending, in hand or to be collected |
| `ClosePool.EverythingIsClosed` | internal/dragonboat/engine.go:855-975 | after any run, however pool and workers take turns, they stop after exactly as many steps as the requests have before them, and every request ever accepted was then carried out as often as it was accepted |
| `ClosePool.CloseWorkerPool.Completed` | internal/dragonboat/engine.go:909-919 | frees worker and cluster, or reports the panic; never one from a reachable state |
| `ClosePool.CloseWorkerPool.GetWorker` | internal/dragonboat/engine.go:926-933 | the first idle worker, or none |
| `ClosePool.CloseWorkerPool.ScheduleReq` | internal/dragonboat/engine.go:968-975 | books worker and cluster and fills the channel |
| `ClosePool.CloseWorkerPool.Rotate` | internal/dragonboat/engine.go:948-966 | finds the first request whose cluster is free, rotating the list |
| `ClosePool.CloseWorkerPool.ScheduleWorker` | internal/dragonboat/engine.go:948-966 | one pass, or its panic |
| `ClosePool.CloseWorkerPool.ScheduleAll` | internal/dragonboat/engine.go:935-941 | the loop ends exhausted |
| `SnapshotHandshake.OneTaskEach` | internal/dragonboat/snapshotstate.go:36-63 | in every reachable interleaving of apply worker, pool and snapshot workers, a kind of snapshot work has at most one task in ready slot, pool, worker and completed slot together, none while its flag is down, and exactly one while it is up unless the pool dropped it |
| `SnapshotHandshake.HandshakeNeverPanics` | internal/dragonboat/node.go:1318-1476 | no step panics: no slot is filled twice, no recovery starts twice, no node is initialized twice, nothing is saved uninitialized |
| `SnapshotHandshake.PhasesExclude` | internal/dragonboat/node.go:1398-1463 | nothing is saved before the node is initialized and no recovery is under way while tasks are handled |
| `SnapshotHandshake.StepKeeps` | internal/dragonboat/snapshotstate.go:185-227 | every atomic step of the three threads keeps the balance of tasks and flags |
| `SnapshotHandshake.VisitKeeps` | internal/dragonboat/engine.go:1193-1216 | a visit of the apply worker run in one go keeps it too |
| `SnapshotHandshake.TaskIsTakenUp` | internal/dragonboat/node.go:1328-1396 | a task found while the node is ready raises its flag and fills its ready slot, if none of its kind is under way; else it is passed over; which, told from the flags |
| `SnapshotHandshake.VisitIs` | internal/dragonboat/node.go:1398-1412 | an undisturbed visit takes every report there is and clears its flag, stops at a save that blocks and at a recovery under way, starts the initial recovery of a node that needs it, and else takes up what it found |
| `SnapshotHandshake.EveryRequestBecomesATask` | internal/dragonboat/node.go:1328-1476 | in every interleaving the tasks put into a ready slot are as many as were asked for while none was under way, less one just being put, and as many were reported back, less one still under way or dropped |
| `SnapshotHandshake.PoolGetsOn` | internal/dragonboat/snapshotstate.go:185-227 | every step of the pool or a worker brings a task of its kind one step closer to its report, or drops it, and touches no other kind and no flag |
| `SnapshotHandshake.PoolAnswers` | internal/dragonboat/snapshotstate.go:36-63 | when none of those steps is left, work under way has its report waiting, or its task was dropped |
| `SnapshotHandshake.StreamingInMemoryPanics` | internal/dragonboat/node.go:1465-1476 | without the host's rule that only on-disk state machines stream, the apply worker does panic |
| `SnapshotHandshake.NodeState.ProcessSaveStatus` | internal/dragonboat/node.go:1451-1463 | takes a save report, or skips the node while a blocking save runs |
| `SnapshotHandshake.NodeState.ProcessStreamStatus` | internal/dragonboat/node.go:1465-1476 | takes a stream report |
| `SnapshotHandshake.NodeState.ProcessRecoverStatus` | internal/dragonboat/node.go:1428-1449 | takes a recovery report, initializing the node if it was the initial one |
| `SnapshotHandshake.NodeState.ProcessUninitializedNodeStatus` | internal/dragonboat/node.go:1414-1426 | starts the initial recovery |
| `SnapshotHandshake.NodeState.ReportRecoverSnapshot` | internal/dragonboat/node.go:1390-1394 | raises the flag and fills the slot |
| `SnapshotHandshake.NodeState.ProcessStatusTransition` | internal/dragonboat/node.go:1398-1412 | the four in order, as a run of atomic steps |
| `SnapshotHandshake.NodeState.HandleSnapshotTask` | internal/dragonboat/node.go:1328-1396 | starts, ignores or refuses a task, as a run of atomic steps |
| `SnapshotHandshake.NodeState.ProcessApplies` | internal/dragonboat/engine.go:1193-1216 | from a reachable state a whole visit ends without a fault and keeps the invariant |
| `ProposalShard.ExactlyOnce` | internal/dragonboat/request.go:1057-1119 | a request `propose` returned is in exactly one of the pending table, a notifier's hands and told once; after close it is told once or about to be; a refused one waits for nothing and was told at most once - in every interleaving, with `propose` and `close` split at their locks |
| `ProposalShard.NeverOverflows` | internal/dragonboat/request.go:415-422 | no interleaving fills a request's result channel twice |
| `ProposalShard.ToldOnceForAll` | internal/dragonboat/request.go:415-422 | what a request was told is never changed or added to |
| `ProposalShard.NothingAcceptedAfterClose` | internal/dragonboat/queue.go:47-73 | once the shared queue is stopped, by this shard's close or another's, no proposal is accepted any more |
| `ProposalShard.ResultsAreHonest` | internal/dragonboat/request.go:1131-1178 | a result reaches the client and series it is for; a timeout only after the deadline, any outcome only before it, at the tick its sender had read |
| `ProposalShard.ReportIsDelivered` | internal/dragonboat/request.go:1131-1178 | a result for an open shard's pending request, under its own client and series, at or before its deadline, is exactly what that request and no other is told; any other report changes nothing |
| `ProposalShard.CollectionIsExact` | internal/dragonboat/request.go:1184-1200 | a collection of an open shard at least the interval after the last tells exactly the pending requests whose deadline has passed that they timed out, at that tick, takes them out and leaves every other as it was; any other collection changes nothing |
| `ProposalShard.DrainTells` | internal/dragonboat/request.go:1109-1119 | close tells exactly the pending requests, each that it is terminated, and leaves every other as it was |
| `ProposalShard.TerminatedByClose` | internal/dragonboat/request.go:1109-1119 | in every reachable state a request told that it is terminated belongs to a closed shard |
| `ProposalShard.ProposalIsPending` | internal/dragonboat/request.go:1057-1107 | a proposal is pending as it was asked from its insertion; it is returned if and only if the queue had room and was not stopped, and is taken back otherwise |
| `ProposalShard.GcBoundIff` | internal/dragonboat/request.go:1184-1200 | at every tick at which a collection is skipped a pending request has a deadline of at least the tick less gcTick plus one, if and only if its deadline is not behind the last collection |
| `ProposalShard.GcBound` | internal/dragonboat/request.go:1184-1200 | so it is for every request that was not inserted behind the last collection |
| `ProposalShard.PromptIsNotLate` | internal/dragonboat/request.go:1057-1090 | a proposer that inserts at the tick it read is no such exception; its deadline is exact if and only if it fits 64 bits |
| `ProposalShard.LateProposalOutlivesCollection` | internal/dragonboat/request.go:1057-1090 | a run from the new shard in which a proposer overtaken by a collection has its overdue request accepted and left behind the next one |
| `ProposalShard.StepKeeps` | internal/dragonboat/request.go:1057-1200 | every critical section keeps the invariant and overflows nothing |
| `ProposalShard.Tracker.Propose` | internal/dragonboat/request.go:1057-1107 | answers each error as the code does and leaves the table as inserting, queueing and withdrawing do |
| `ProposalShard.Tracker.Reply` | internal/dragonboat/request.go:1131-1178 | takes out a matching, unexpired request and tells it |
| `ProposalShard.Tracker.TimeOutAll` | internal/dragonboat/request.go:1194-1199 | the loop times out exactly the overdue requests; what each is told is `ProposalShard.CollectionIsExact` |
| `ProposalShard.Tracker.GcAt` | internal/dragonboat/request.go:1184-1200 | collects unless closed or too soon, with wrapping tick arithmetic |
| `ProposalShard.Tracker.Applied` | internal/dragonboat/request.go:1162-1178 | delivers the result, and collects if and only if this is the first report at the tick |
| `ProposalShard.Tracker.Close` | internal/dragonboat/request.go:1109-1119 | the loop terminates exactly the pending requests |
| `ReadIndexRuns.ExactlyOnce` | internal/dragonboat/request.go:803-966 | until close is done a read stands in exactly one position of the queue, the step worker's hands and the slots of all batches, in a batch under its own context, or it stands in none and was told exactly once; nobody is ever told twice |
| `ReadIndexRuns.ResultsAreHonest` | internal/dragonboat/request.go:908-937 | a read completes only before its deadline, with an applied, non-zero index raft confirmed for the context the read was filed under, and confirmed after the read was accepted; it times out only at or after its deadline |
| `ReadIndexRuns.ConfirmedReadCompletes` | internal/dragonboat/request.go:861-937 | a waiting read is told as soon as the index confirmed for its context is applied: completed if its deadline is ahead, timed out if not |
| `ReadIndexAnswers.AppliedTells` | internal/dragonboat/request.go:908-966 | what `applied` tells each read, told from the tables: a read whose batch has a confirmed index now applied completes, or times out if its deadline has come; any other filed read times out if its deadline has passed and the collection is due; nobody else is told anything |
| `ReadIndexAnswers.DropTells` | internal/dragonboat/request.go:892-906 | dropping a context tells everyone waiting under it, and nobody else, that the read was dropped, and forgets that batch only |
| `ReadIndexAnswers.CloseTells` | internal/dragonboat/request.go:803-821 | close tells everyone still waiting, except in the step worker's hands, that the read is terminated, and nobody anything else |
| `ReadIndexAnswers.AskedReadIsAnswered` | internal/dragonboat/request.go:823-937 | a read an open tracker has room for, filed with everyone queued before it and confirmed, completes when the index is applied, or times out if its deadline has come by then |
| `ReadIndexAnswers.FilingFiles` | internal/dragonboat/request.go:823-890 | asking, taking the queue and filing puts the read last in a batch of everyone queued before it, in order |
| `ReadIndexAnswers.AskQueues` | internal/dragonboat/request.go:823-840 | a read is last on the queue, untold and with its deadline, unless the queue is full or stopped; then it leaves no trace |
| `ReadIndexRuns.OnlyTakenReadsAreLost` | internal/dragonboat/request.go:803-890 | a read is never told if and only if the step worker had it in its hands when close ran |
| `ReadIndexRuns.LostRead` | internal/dragonboat/request.go:803-890 | a run from the new tracker that loses a read |
| `ReadIndexRuns.ToldOnceForAll` | internal/dragonboat/request.go:415-422 | a read is never told twice |
| `ReadIndexRuns.NeverPanics` | internal/dragonboat/request.go:875-890 | no interleaving overflows a channel or files a context twice |
| `ReadIndex.TellsExactly` | internal/dragonboat/request.go:415-422 | telling a batch of distinct, untold reads slot by slot tells everyone in it and nobody else, without filling a channel twice |
| `ReadIndex.EndBatchKeeps` | internal/dragonboat/request.go:892-931 | completing or dropping a batch keeps the books |
| `ReadIndex.ExpireSlotKeeps` | internal/dragonboat/request.go:943-951 | so does emptying the slot of an overdue read |
| `ReadIndex.TerminateKeeps` | internal/dragonboat/request.go:803-821 | so does close, which leaves untold exactly those in the step worker's hands |
| `ReadIndexRuns.CollectForgetsOnlyTold` | internal/dragonboat/request.go:939-966 | collection deletes a batch only when everyone in it was told, those still waiting that they are overdue |
| `ReadIndexRuns.CollectKeepsExactly` | internal/dragonboat/request.go:939-966 | it keeps a batch if and only if it is recent or someone in it is not overdue |
| `ReadIndexRuns.CollectLeavesNoneOverdue` | internal/dragonboat/request.go:939-951 | it leaves nobody overdue in a batch |
| `ReadIndexRuns.StepKeeps` | internal/dragonboat/request.go:803-966 | every critical section keeps the invariant |
| `ReadIndexMachine.PendingReadIndex.Ask` | internal/dragonboat/request.go:823-840 | queues the read or answers with the error the code gives |
| `ReadIndexMachine.PendingReadIndex.TakeQueue` | internal/dragonboat/queue.go:156-164 | hands the step worker the queue |
| `ReadIndexMachine.PendingReadIndex.Add` | internal/dragonboat/request.go:875-890 | files a batch, lets it go after close, or refuses a context used twice |
| `ReadIndexMachine.PendingReadIndex.AddReadyAll` | internal/dragonboat/request.go:861-873 | the loop gives each batch the last index listed for it |
| `ReadIndexMachine.PendingReadIndex.TellAll` | internal/dragonboat/request.go:897-901 | the loop over the slots of a batch |
| `ReadIndexMachine.PendingReadIndex.DroppedCtx` | internal/dragonboat/request.go:892-906 | drops a batch and tells everyone in it |
| `ReadIndexMachine.PendingReadIndex.ExpireBatch` | internal/dragonboat/request.go:944-950 | the loop over the slots of one batch times out and empties exactly the overdue ones |
| `ReadIndexMachine.PendingReadIndex.ExpireAll` | internal/dragonboat/request.go:943-951 | the loop over the batches |
| `ReadIndexMachine.PendingReadIndex.NobodyIn` | internal/dragonboat/request.go:954-960 | is nobody left in the slots? |
| `ReadIndexMachine.PendingReadIndex.ForgetAll` | internal/dragonboat/request.go:952-965 | the loop deletes exactly the old, empty batches |
| `ReadIndexMachine.PendingReadIndex.Gc` | internal/dragonboat/request.go:939-966 | both loops are `Collect` |
| `ReadIndexMachine.PendingReadIndex.ApplyBatch` | internal/dragonboat/request.go:916-930 | completes or times out the reads of a batch whose index is applied, and deletes it |
| `ReadIndexMachine.PendingReadIndex.ApplyAll` | internal/dragonboat/request.go:915-931 | the loop over the batches |
| `ReadIndexMachine.PendingReadIndex.AppliedTo` | internal/dragonboat/request.go:908-937 | completes what is due and collects unless too soon; without a fault in every state that keeps the books |
| `ReadIndexMachine.PendingReadIndex.Close` | internal/dragonboat/request.go:803-821 | stops the queue and terminates everyone in it and in the batches, without a fault |
| `SingleSlot.EndedExactlyOnce` | internal/dragonboat/request.go:569-790 | over any run at most one config change or snapshot request is pending, every other accepted one was told exactly once, a timeout only after its deadline, and nothing is pending after close |
| `SingleSlot.EndsWithItsResult` | internal/dragonboat/request.go:576-672 | the pending request ends with its own result, with a timeout at a collection that is due and finds it overdue, or terminated by close, and no other request changes; a result for another request, and any other collection, tell nobody |
| `SingleSlot.AcceptedIff` | internal/dragonboat/request.go:591-625 | a request is accepted, pending and on its way to the step worker, if and only if it has time, the node is open, none is pending and the last was picked up; else nothing changes and the answer says why |
| `SingleSlot.StepKeeps` | internal/dragonboat/request.go:569-790 | every operation keeps this and overflows nothing |
| `SingleSlot.PendingRequest.RequestNew` | internal/dragonboat/request.go:591-625 | accepts, or answers with the error the code gives |
| `SingleSlot.PendingRequest.Apply` | internal/dragonboat/request.go:648-672 | tells the pending request if the key is its own |
| `SingleSlot.PendingRequest.Collect` | internal/dragonboat/request.go:627-646 | times it out if it is overdue and it is not too soon |
| `SingleSlot.PendingRequest.CloseSlot` | internal/dragonboat/request.go:581-589 | terminates it |
| `ApplyPipeline.StateMachineSeesTheLog` | internal/dragonboat/node.go:549-621 | over any run of overlapping committed batches and snapshots that passes the node's checks, the state machine is fed the log's entries one after the other, none missing, repeated or altered, except for jumps forward to a snapshot; the pushed index never decreases |
| `ApplyPipeline.FeedsInOrder` | internal/dragonboat/node.go:582-588 | later tasks deliver strictly larger indexes |
| `ApplyPipeline.WrappingAgrees` | internal/dragonboat/node.go:549-566 | the wrapping 64-bit trimming equals the natural one if and only if it is not asked, at the last index, for a batch that ends there |
| `ApplyPipeline.WrappingDiffersAtTheEnd` | internal/dragonboat/node.go:549-566 | at the last index it panics where the natural one accepts |
| `ApplyPipeline.TrimmedIsSlice` | internal/dragonboat/node.go:549-566 | what survives the trimming continues exactly where the node is, and reaches the batch's end |
| `ApplyPipeline.StepFeeds` | internal/dragonboat/node.go:605-621 | one round extends the feed and never moves back |
| `ApplyPipeline.RoundIs` | internal/dragonboat/node.go:549-621 | what a round does, told from the indexes: it fails if and only if the snapshot is behind what was pushed, recorded or applied, or the entries are too old or leave a hole; else it queues the snapshot's recovery and then exactly the entries not pushed yet |
| `ApplyPipeline.TrimIs` | internal/dragonboat/node.go:549-566 | what is left of a batch is exactly its entries above the index pushed |
| `ApplyPipeline.RunQueues` | internal/dragonboat/node.go:568-621 | over any run the recoveries and the requests queued are exactly the snapshots and requests given, in order |
| `ApplyPipeline.SavedRefusesOlder` | internal/dragonboat/node.go:604-621 | once a snapshot was recorded, an older one from the leader is refused |
| `ApplyPipeline.Pipeline.PushTask` | internal/dragonboat/node.go:568-580 | appends to what the state machine will get |
| `ApplyPipeline.Pipeline.NotifyCommittedEntries` | internal/dragonboat/node.go:1039-1056 | passing tasks from queue to queue loses, adds and reorders nothing, and every task goes on only after a notice for each of its entries |
| `ApplyPipeline.Pipeline.GetAll` | internal/dragonboat/node.go:568-580 | hands the state machine the queue's contents |
| `ApplyPipeline.Pipeline.Trim` | internal/dragonboat/node.go:549-566 | computes `EntriesToApply` or its panic |
| `ApplyPipeline.Pipeline.Process` | internal/dragonboat/node.go:1065-1079 | snapshot first, then entries, as `ApplyUpdate` says |
| `StepTrace.EachOnce` | internal/dragonboat/engine.go:1287-1336 | a round does every event as often as its nodes call for it - one push of a snapshot and of entries if there are any, one send per message, one commit, one notice per other member of a node gone quiet, for nodes that run, are initialized and have something to do - and persists once |
| `StepTrace.OvertakesIffQuiet` | internal/dragonboat/node.go:969-1130 | a message other than Replicate and Ping leaves before the round persists if and only if some stepped node has an event, has just gone quiet and has another member; such a message is a Quiesce notice, and no commit precedes persistence |
| `StepTrace.QuietNodeOvertakes` | internal/dragonboat/node.go:973-985 | a round of one node that sends a notice and persists nothing |
| `StepTrace.OnlyFreeBefore` | internal/dragonboat/node.go:969-1003 | of the messages of updates only Replicate and Ping precede persistence |
| `StepTrace.OnlyOthersAfter` | internal/dragonboat/node.go:987-994 | only other messages follow it |
| `StepTrace.PushedEarlyIffFast` | internal/dragonboat/engine.go:1354-1375 | the snapshot and the entries an update has are pushed before persistence if and only if it is marked FastApply, and after it if and only if it is not |
| `StepTrace.SnapshotsComeFirst` | internal/dragonboat/engine.go:1354-1375 | the snapshot of an update reaches the state machine before its entries |
| `StepTrace.CommitsComeLast` | internal/dragonboat/engine.go:1318-1332 | the commit of an update is the last event about its cluster: after persistence, its pushes and all its messages |
| `StepTrace.SentInOrder` | internal/dragonboat/node.go:987-1003 | messages are sent in the order the update gives them, within each class |
| `StepTrace.UpdatesOnce` | internal/dragonboat/engine.go:1298-1307 | each update is persisted as often as a node that runs, is initialized and has something to do yields it |
| `StepTrace.NoticesOnlyOnce` | internal/dragonboat/node.go:1118-1130 | a node stepped once sends no second notice |
| `StepTrace.OneUpdateEach` | internal/dragonboat/engine.go:1298-1307 | a round has at most one update of a cluster |
| `StepTrace.Engine.StepNode` | internal/dragonboat/node.go:1118-1130 | steps a node: takes the flag down, sends the notices it asks for, returns the update |
| `StepTrace.Engine.SendEnterQuiesceMessages` | internal/dragonboat/node.go:973-985 | the loop sends one notice to every other member |
| `StepTrace.Engine.VisitOne` | internal/dragonboat/engine.go:1298-1307 | one turn of the loop over the active clusters, those stopped or unknown passed over |
| `StepTrace.Engine.StepNodes` | internal/dragonboat/engine.go:1290-1307 | steps exactly the active clusters, or all if none is, each once: the notices sent, the flags taken down and the updates collected are those of their running nodes |
| `StepTrace.Engine.SendMessages` | internal/dragonboat/node.go:987-1003 | sends one class of an update's messages, in order |
| `StepTrace.Engine.ApplySnapshotAndUpdate` | internal/dragonboat/engine.go:1354-1375 | pushes the updates of one class, snapshot before entries |
| `StepTrace.Engine.SendReplicates` | internal/dragonboat/engine.go:1309-1317 | the loop before persistence |
| `StepTrace.Engine.Finish` | internal/dragonboat/engine.go:1325-1332 | the loop after it |
| `StepTrace.Engine.ProcessSteps` | internal/dragonboat/engine.go:1287-1336 | appends exactly `Trace` of the nodes stepped, in some order of the clusters, and nothing when there are no nodes |
| `LogCompaction.NoRecoveryHole` | internal/dragonboat/node.go:707-766 | in every reachable interleaving of saving, recovering, installing and removing, nothing after the newest recorded snapshot has been removed from the log, nor reclaimed |
| `LogCompaction.NewestIsNeverDeleted` | internal/dragonboat/snapshotter.go:268-285 | the newest snapshot ever recorded is still recorded |
| `LogCompaction.RemovalsAreAllowed` | internal/dragonboat/node.go:918-950 | every index the log is removed to is positive and a recorded snapshot's index less the overhead asked for |
| `LogCompaction.NeverRacy` | internal/dragonboat/node.go:918-923 | the register seen filled is never found empty: the "racy" panic is unreachable |
| `LogCompaction.StepKeeps` | internal/dragonboat/node.go:707-766 | every step keeps the invariant |
| `LogCompaction.SaveKeeps` | internal/dragonboat/node.go:707-759 | a whole save keeps it |
| `LogCompaction.SaveIsARun` | internal/dragonboat/node.go:707-766 | a save nobody disturbs is a run of the steps Save, Record, Create, Ask, Select and one Delete per old snapshot, or of those before it stopped |
| `LogCompaction.SaveReleases` | internal/dragonboat/node.go:761-766 | a save that gets past the log reader leaves the register holding exactly the snapshot's index less the overhead, if that is positive; any other leaves the register alone |
| `LogCompaction.ReleasedLogGoes` | internal/dragonboat/node.go:918-966 | what the register holds the step worker removes from the log, in one removal, and the log database reclaims |
| `LogCompaction.RecoveryIsARun` | internal/dragonboat/node.go:815-831 | a recovery nobody disturbs ends with the old snapshots deleted |
| `LogCompaction.StepRecords` | internal/dragonboat/node.go:707-766 | a snapshot is recorded by the step that records it and is there until it is deleted |
| `LogCompaction.Snapshotter.Compact` | internal/dragonboat/snapshotter.go:268-285 | the loop deletes exactly the snapshots up to the index except the newest three of them, and never the newest |
| `LogCompaction.Snapshotter.GetMostRecentSnapshot` | internal/dragonboat/snapshotter.go:199-208 | the largest recorded index, or none |
| `LogCompaction.Snapshotter.Count` | internal/dragonboat/snapshotter.go:268-276 | how many of the ascending records are not above the index |
| `LogCompaction.StoppedSaveKeeps` | internal/dragonboat/node.go:707-759 | so does a save that stops half way |
| `LogCompaction.NodeLog.DoSave` | internal/dragonboat/node.go:707-766 | skips, aborts, exports or records, releases the log and deletes old snapshots, or stops with or without an error, as the code's branches say; after a save the register holds index less overhead |
| `LogCompaction.NodeLog.RemoveLog` | internal/dragonboat/node.go:918-950 | removes the log as far as the register says, never racy |
| `LogCompaction.NodeLog.RequestCompaction` | internal/dragonboat/node.go:952-966 | reclaims what was removed and empties the register |
| `Colfer.RoundTrip` | internal/dragonboat/raftpb/raft_optimized.go:303-651 | an entry `Size` admits is read back from its encoding, whatever follows it, with exactly its bytes consumed, if and only if its size is below the limit; at the limit reading fails |
| `Colfer.LimitIsMet` | internal/dragonboat/raftpb/raft_optimized.go:140-152 | there are entries at the limit |
| `Colfer.SizeIsExact` | internal/dragonboat/raftpb/raft_optimized.go:79-153 | `Size` is the number of bytes written, at most 69 more than the command |
| `ColferLayout.Layout` | internal/dragonboat/raftpb/raft_optimized.go:155-301 | each field stands under its own number, in this order, and then the closing byte |
| `ColferLayout.SmallSample` | internal/dragonboat/raftpb/raft_optimized.go:155-301 | an entry of small numbers, byte for byte |
| `ColferLayout.WideSample` | internal/dragonboat/raftpb/raft_optimized.go:155-301 | an entry with a number written whole, one of two digits and a negative type, byte for byte |
| `Colfer.U64ReadsBack` | internal/dragonboat/raftpb/raft_optimized.go:310-347 | a 64-bit field is read back, large words whole and others as a varint |
| `Colfer.KindReadsBack` | internal/dragonboat/raftpb/raft_optimized.go:387-443 | the signed type is read back, negative ones through their magnitude |
| `Colfer.CmdReadsBack` | internal/dragonboat/raftpb/raft_optimized.go:599-638 | the command is read back |
| `Colfer.U64Stays` | internal/dragonboat/raftpb/raft_optimized.go:310-347 | on arbitrary input reading a field stays within the data and within 64 bits |
| `Colfer.ReadStays` | internal/dragonboat/raftpb/raft_optimized.go:303-636 | so does reading any field |
| `ColferCodec.SizeOf` | internal/dragonboat/raftpb/raft_optimized.go:79-153 | computes the exact size, or that the entry is over the limit |
| `ColferCodec.PutVarint` | internal/dragonboat/raftpb/raft_optimized.go:168-179 | writes a varint in place and touches nothing else |
| `ColferCodec.PutUint64` | internal/dragonboat/raftpb/raft_optimized.go:164-167 | writes a big-endian word in place |
| `ColferCodec.PutU64` | internal/dragonboat/raftpb/raft_optimized.go:164-179 | writes one 64-bit field |
| `ColferCodec.PutKind` | internal/dragonboat/raftpb/raft_optimized.go:196-212 | writes the type |
| `ColferCodec.PutCmd` | internal/dragonboat/raftpb/raft_optimized.go:278-290 | writes the command |
| `ColferCodec.MarshalTo` | internal/dragonboat/raftpb/raft_optimized.go:161-295 | writes exactly the entry's encoding and leaves the rest of the buffer alone |
| `ColferCodec.ReadMore` | internal/dragonboat/raftpb/raft_optimized.go:319-333 | the varint loop |
| `ColferCodec.ReadU64` | internal/dragonboat/raftpb/raft_optimized.go:310-347 | reads one 64-bit field |
| `ColferCodec.ReadKind` | internal/dragonboat/raftpb/raft_optimized.go:387-443 | reads the type |
| `ColferCodec.ReadCmd` | internal/dragonboat/raftpb/raft_optimized.go:599-638 | reads the command |
| `ColferCodec.UnmarshalFrom` | internal/dragonboat/raftpb/raft_optimized.go:303-651 | reads an entry from arbitrary data as `Unmarshal` says, never past its end |
| `Wire.SovIsLength` | internal/dragonboat/raftpb/raft.pb.go:2898-2907 | the size counted for a varint is the number of bytes written |
| `Wire.VarintRoundTrip` | internal/dragonboat/raftpb/raft.pb.go:2577-2585 | every 64-bit number is read back from its varint |
| `Wire.GetVarintFits` | internal/dragonboat/raftpb/raft.pb.go:3756-3769 | a varint of up to ten bytes never says more than 64 bits hold |
| `Wire.SkipIsExact` | internal/dragonboat/raftpb/raft.pb.go:6330-6434 | skipping a well-formed field of any wire type, groups nested to any depth included, ends exactly behind it |
| `Wire.Skip` | internal/dragonboat/raftpb/raft.pb.go:6330-6434 | a skip that succeeds moves forward, which is why skipping ends |
| `WireSession.ReturnsIff` | internal/dragonboat/client/session.pb.go:162-287 | on any data, reading a session panics if and only if it reaches a field whose end overflows a signed position unnoticed; otherwise it returns what a reader that watches for overflow returns |
| `WireSession.LeapIs` | internal/dragonboat/client/session.pb.go:288-390 | skipping a field panics if and only if it is a group that holds, at some depth, a field ending 2^63 bytes or more behind the start of its group |
| `WireSession.LengthTripsIff` | internal/dragonboat/client/session.pb.go:267-281 | a length-delimited unknown field is such a field if and only if it is shorter than 2^63 bytes and ends at or behind position 2^63 |
| `WireSession.HugeLengthPanics` | internal/dragonboat/client/session.pb.go:267-281 | behind any well-formed fields such a length makes reading panic, whatever follows |
| `WireSession.WrappingPanics` | internal/dragonboat/client/session.pb.go:267-281 | twelve bytes on which it does |
| `WireSession.LoadMeansFields` | internal/dragonboat/client/session.pb.go:162-287 | any well-formed list of fields is read as what it says: repeated, reordered, unknown fields passed over |
| `WireSession.SessionLoadsBack` | internal/dragonboat/client/session.pb.go:107-287 | a session is read back from its encoding into any session, also when unknown fields follow |
| `WireMessages.SessionSizeIsExact` | internal/dragonboat/client/session.pb.go:136-157 | a session's size is what is written, at most 44 bytes |
| `WireEntries.BatchRoundTrip` | internal/dragonboat/raftpb/raft.pb.go:3750-3836 | a batch is read back from its encoding if and only if every entry is below the entry codec's limit |
| `WireEntries.BatchMeansFields` | internal/dragonboat/raftpb/raft.pb.go:3750-3836 | a batch is read as what its fields say, unknown ones passed over, failing exactly when an entry does |
| `WireEntries.BatchSizeIsExact` | internal/dragonboat/raftpb/raft.pb.go:2661-2674 | a batch's size is what is written |
| `WireCount.CountIsLoop` | internal/dragonboat/raftpb/raft_optimized.go:980-1013 | on any data: the count is a number if and only if the unchecked loop leaves after that many entries, a panic if and only if it reads outside the data, and there is none if and only if it never leaves |
| `WireCount.ForeverIffReturns` | internal/dragonboat/raftpb/raft_optimized.go:980-1013 | it never leaves if and only if it comes back to a position |
| `WireCount.ForwardReturns` | internal/dragonboat/raftpb/raft_optimized.go:995-1007 | without an entry of negative length it leaves, or panics |
| `WireCount.BackwardGoesRound` | internal/dragonboat/raftpb/raft_optimized.go:995-1007 | behind any entries, one whose negative length leads back to the first makes it go round for ever |
| `WireCount.RoundForever` | internal/dragonboat/raftpb/raft_optimized.go:980-1013 | eleven bytes on which it does |
| `WireCount.CountIsLeading` | internal/dragonboat/raftpb/raft_optimized.go:980-1013 | on well-formed data it counts the leading entry fields |
| `WireCount.EntryCountIsExact` | internal/dragonboat/raftpb/raft.pb.go:2248-2312 | for every message as it is written, the count behind the first entry plus one is the number of its entries |
| `WireCodec.SizeVarint` | internal/dragonboat/raftpb/raft.pb.go:2898-2907 | the loop computes the varint's length |
| `WireCodec.SizeBatch` | internal/dragonboat/raftpb/raft.pb.go:2661-2674 | the loop computes the batch's length |
| `WireCodec.MarshalSessionTo` | internal/dragonboat/client/session.pb.go:107-125 | writes the session in place and touches nothing else |
| `WireCodec.MarshalBatchTo` | internal/dragonboat/raftpb/raft.pb.go:2005-2023 | writes the batch in place, entry by entry |
| `WireCodec.ReadVarint` | internal/dragonboat/raftpb/raft.pb.go:3756-3769 | the reading loop |
| `WireCodec.SkipField` | internal/dragonboat/raftpb/raft.pb.go:6330-6434 | skips as `Skip` says, recursing into groups |
| `WireCodec.SkipToEnd` | internal/dragonboat/raftpb/raft.pb.go:6392-6423 | the loop over a group's fields |
| `WireCodec.LeapField` | internal/dragonboat/client/session.pb.go:288-390 | skips a field of a session as `Leap` says, recursing into groups |
| `WireCodec.LeapToEnd` | internal/dragonboat/client/session.pb.go:348-376 | the loop over a group's fields, up to the index that has wrapped |
| `WireCodec.UnmarshalSession` | internal/dragonboat/client/session.pb.go:162-287 | the loop reads what `LoadSession` says, panics included |
| `WireCodec.UnmarshalBatch` | internal/dragonboat/raftpb/raft.pb.go:3750-3836 | the loop reads what `ReadBatch` says |
| `WireCodec.CountEntries` | internal/dragonboat/raftpb/raft_optimized.go:980-1013 | the loop counts what `EntryCount` says, going round for ever included |
| `EntryQueue.RunConserves` | internal/dragonboat/queue.go:53-102 | over any run the reads, one after the other, and what is still queued are exactly what was accepted, in order; nothing is accepted after close |
| `EntryQueue.AcceptedIff` | internal/dragonboat/queue.go:60-102 | an entry is accepted, last, if and only if the queue has room and is neither paused nor stopped; a read takes all of it |
| `EntryQueue.Drive` | internal/dragonboat/queue.go:24-102 | two arrays that swap roles behave as that queue over any run of operations |
| `EntryQueue.DoubleBuffer.constructor` | internal/dragonboat/queue.go:38-45 | starts as the empty queue |
| `EntryQueue.DoubleBuffer.Enqueue` | internal/dragonboat/queue.go:60-73 | accepts as the queue does, and leaves the slice handed out last intact |
| `EntryQueue.DoubleBuffer.Dequeue` | internal/dragonboat/queue.go:75-102 | returns exactly what was accepted since the last read, in a slice the clearing of old commands does not touch |
| `EntryQueue.DoubleBuffer.Clear` | internal/dragonboat/queue.go:75-88 | drops commands in the first places only |
| `EntryQueue.DoubleBuffer.CloseQueue` | internal/dragonboat/queue.go:47-51 | stops the queue |
| `Wakeup.NoLostWakeup` | internal/dragonboat/engine.go:153-226 | in every interleaving, marked clusters imply a token in the channel, a producer that has yet to notify, or a worker on its way to swap |
| `Wakeup.SwapReturnsMarks` | internal/dragonboat/queue.go:187-198 | a swap returns exactly the clusters marked since the swap before, whatever the 8-bit counter has wrapped to, and leaves nothing marked |
| `Wakeup.MarkedIsReturned` | internal/dragonboat/queue.go:181-198 | a marked cluster is in the first batch swapped out after the mark |
| `Wakeup.ReadyIsMarked` | internal/dragonboat/queue.go:181-198 | between two swaps the ready set collects exactly the clusters marked |
| `Wakeup.StepSpends` | internal/dragonboat/engine.go:153-226 | unless clusters are marked, every step brings the worker closer to its swap |
| `Wakeup.NothingLeftBehind` | internal/dragonboat/engine.go:153-226 | when no such step is left everything marked has been swapped out |
| `Wakeup.BatchIsStable` | internal/dragonboat/queue.go:187-198 | marks do not disturb the batch handed out last |
| `Wakeup.StepKeeps` | internal/dragonboat/engine.go:153-226 | every step keeps the invariant |
| `Wakeup.BitmapIsSet` | internal/dragonboat/engine.go:41-57 | a 64-bit bitmap is a set of numbers below 64 |
| `Wakeup.ReadyCluster.SetClusterReady` | internal/dragonboat/queue.go:181-185 | marks a cluster |
| `Wakeup.ReadyCluster.GetReadyClusters` | internal/dragonboat/queue.go:187-198 | returns the marks since the last call, across the counter's wrap |
| `Wakeup.WorkReady.Notify` | internal/dragonboat/engine.go:153-158 | puts in a token unless there is one |
| `Wakeup.WorkReady.MarkAll` | internal/dragonboat/engine.go:180-186 | marks every cluster in its partition |
| `Wakeup.WorkReady.NotifyAll` | internal/dragonboat/engine.go:187-194 | notifies each partition concerned exactly once |
| `Wakeup.WorkReady.ClustersReady` | internal/dragonboat/engine.go:180-194 | all marks come before any notification |
| `NodeLoading.CopiesAndLoads` | internal/dragonboat/engine.go:1250-1285 | in every reachable state a worker's copy is its share of the host's table at the version it remembers, and the calls of loaded on a node, made by cluster id, exceed those of offloaded by exactly its holders |
| `NodeLoading.ShutdownUnloadsAll` | internal/dragonboat/engine.go:467-474 | after a full shutdown every node was unloaded as often as it was loaded |
| `NodeLoading.PartitionsAreDisjoint` | internal/dragonboat/engine.go:1250-1285 | two workers of one kind never serve the same cluster |
| `NodeLoading.RefreshMatches` | internal/dragonboat/engine.go:1257-1281 | because a load with two incarnations panics, the calls it makes by cluster id are those its change of nodes asks for |
| `NodeLoading.WhoHolds` | internal/dragonboat/engine.go:1250-1285 | what every holder has after every step, told from what was held before it; a load, and nothing else, fails if and only if the copy is not current and has another incarnation of a cluster than the host |
| `NodeLoading.StartClashesIff` | internal/dragonboat/nodehost.go:1586-1595 | after a start, the next load of a worker or the pool panics if and only if its copy holds a node of the cluster, or would have made it panic before |
| `NodeLoading.StartIsSafeIff` | internal/dragonboat/nodehost.go:1586-1595 | a start makes some load panic, where none would have, if and only if a worker or the pool holds a node of the cluster; the check made looks for the replica being started only |
| `NodeLoading.OneReplicaHost` | internal/dragonboat/engine.go:1258-1263 | as long as a host runs one replica of a cluster, the "two incarnations" panic is unreachable |
| `NodeLoading.OtherReplicaClashes` | internal/dragonboat/engine.go:1258-1263 | for every worker and every cluster it serves there is a run that replaces the replica and panics |
| `NodeLoading.StepKeeps` | internal/dragonboat/nodehost.go:1568-1652 | starting, stopping, loading and leaving keep copies and counts in step |
| `NodeLoading.LoadBucketNodes` | internal/dragonboat/engine.go:1250-1285 | copies the worker's share, or clashes; lists the nodes of clusters not in the old copy and those of clusters not in the new one |
| `NodeLoading.ReloadHolder` | internal/dragonboat/engine.go:1088-1098 | a load changes copy, version and calls exactly as the step does |
| `NodeLoading.CopyTable` | internal/dragonboat/engine.go:1257-1273 | the loop over the host's table |
| `NodeLoading.Unlisted` | internal/dragonboat/engine.go:1274-1278 | lists exactly the nodes whose cluster is gone |
| `Quiesce.QuietTimes` | internal/dragonboat/quiesce.go:43-120 | over any run entries and exits alternate, at least the threshold lies between an exit and the next entry, a node that may not quiesce never does, and an awake one has been idle for at most the threshold |
| `Quiesce.RestsIff` | internal/dragonboat/quiesce.go:81-83 | every run keeps ten election timeouts between an exit and the next entry if and only if they fit 64 bits, or what is left of them leaves no time for a second entry |
| `Quiesce.FourTicks` | internal/dragonboat/quiesce.go:81-83 | an election timeout and a run in which the threshold is four ticks |
| `Quiesce.AlternatesIff` | internal/dragonboat/quiesce.go:99-120 | entries and exits alternate in every run if and only if the threshold is not zero |
| `Quiesce.HeartbeatsDoNotWake` | internal/dragonboat/quiesce.go:61-90 | within an election timeout of going quiet, ticks and heartbeats alone do not wake a node |
| `Quiesce.WakesIff` | internal/dragonboat/quiesce.go:61-90 | a message wakes a quiet node if and only if it is no heartbeat or the node has been quiet for an election timeout, and ends the idle time of an awake one if and only if it is no heartbeat |
| `Quiesce.FollowsIff` | internal/dragonboat/quiesce.go:99-108 | an awake node follows another into quiet if and only if the threshold has passed since its last exit, or since it started |
| `Quiesce.IdleNodeGoesQuiet` | internal/dragonboat/quiesce.go:43-55 | a node that hears only heartbeats stays awake until the threshold has passed and goes quiet once it has |
| `Quiesce.StepKeeps` | internal/dragonboat/quiesce.go:43-120 | every tick and message keeps the invariant |
| `Quiesce.QuiesceState.TickOnce` | internal/dragonboat/quiesce.go:43-55 | counts a tick, going quiet past the threshold |
| `Quiesce.QuiesceState.RecordMessage` | internal/dragonboat/quiesce.go:61-79 | resets the idle time and wakes the node, heartbeats aside |
| `Quiesce.QuiesceState.TryEnterQuiesce` | internal/dragonboat/quiesce.go:99-108 | goes quiet with the others unless it has just woken |
| `Quiesce.QuiesceState.EnterQuiesce` | internal/dragonboat/quiesce.go:110-115 | goes quiet and raises the flag |
| `KeyPath.ValidIffCanonical` | internal/auth/keypath/keypath.go:28-67 | a key is valid if and only if it is the path of two or more legal segments, within the length bound |
| `KeyPath.PrefixIsSegmentwise` | internal/auth/keypath/keypath.go:92-98 | any prefix covers a path if and only if the segments of the directory it names start the path's segments; the wildcard and "/" name the root, and what does not begin with a slash names none |
| `KeyPath.WildcardCoversAll` | internal/auth/keypath/keypath.go:92-98 | the empty prefix covers every key, path or not, the root every key that begins with a slash |
| `KeyPath.ClosingSlashIsIgnored` | internal/auth/keypath/keypath.go:92-98 | a closing slash changes nothing |
| `KeyPath.OwnerIsFirst` | internal/auth/keypath/keypath.go:102-111 | the owner of a valid key is its first segment |
| `KeyPath.OwnsIffBelow` | internal/auth/keypath/keypath.go:92-111 | a user owns exactly the valid keys under the user's own directory |
| `KeyPath.SplitJoin` | internal/auth/keypath/keypath.go:39-39 | splitting a path gives back its segments |
| `KeyPath.JoinSplit` | internal/auth/keypath/keypath.go:39-39 | joining what was split gives back the path |
| `Authz.AuthorizeByRules` | internal/auth/authz/authz.go:91-110 | the loop allows if and only if some rule covers the key and grants the right |
| `Authz.Authorize` | internal/auth/authz/authz.go:135-142 | a home directory adds reading and writing of owned keys to what is allowed inside, and nothing else |
| `Authz.AccessBySegments` | internal/auth/authz/authz.go:91-142 | for every identity and all rules, in terms of segments: one's own first segment, or a directory at or above the key that a rule names |
| `Authz.AdminNeedsARule` | internal/auth/authz/authz.go:88-142 | without the permissive policy, an unknown operation is refused and administration takes a rule that grants it |

## Left out

- ApplyPipeline.Pipeline.NotifyCommittedEntries: does not model the panic on an entry of unknown type; an entry is an index and data.
- StepTrace.Engine.ProcessSteps: pushed entries stand for the whole committed batch; trimming it is `ApplyPipeline`.
- LogCompaction.NodeLog.DoSave: states the new tables; that they keep the invariant is `LogCompaction.SaveKeeps` and `LogCompaction.StoppedSaveKeeps`, and that they are a run of the steps `LogCompaction.SaveIsARun`. How saving, recording and the log reader turn out is a parameter.
- NodeLoading.LoadBucketNodes: the list of nodes to load is built after the copy, not during it.
- StepTrace.Engine.StepNode: what `handleEvents` finds, the members and the update are the node's fields; how raft makes them is left out.
- WireCodec.CountEntries: keeps the positions it has seen, so that going round for ever is an answer; the loop it models does not.
- Wakeup.WorkReady.NotifyAll: the bitmap is a set of numbers below 64; `Wakeup.BitmapIsSet` relates the two.
- WireCount.EntryCountIsExact: the snapshot inside a message is any sequence of bytes.
- The two arrays behind the queue of incoming reads, which is a bounded list here, and the leader-info queue.
- Commit notifications (`RequestState.committed`, `ResultC`): delivery depends on goroutine timing outside the shard's lock.
- The proposal tracker's choice of shard by key, and request objects returning to their pool.
- Queries on the lock state machine (status, lists, due leases), the watch hub, the gRPC server, sessions and the client library.
- The remaining protobuf messages, and reading a whole raft message: the same pattern as the ones modelled, only longer.
- Raft itself (elections, replication, commitment), the log database, transport, snapshot files, orphan processing and shrinking.
- Configuration, TLS, tokens, rate limiting, the user interface, metrics and logging.
