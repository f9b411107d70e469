# Job queue, job graphs and record exchange: a verified model

A Dafny model of the parts of the repository in which correctness is hard to see, with
proofs of what they promise. `dafny verify dfyconfig.toml` checks everything.

## What is modelled

**The channel scheduler** (`channels.py`) in layers. `PriorityQueue.dfy` is a binary heap
with sift-up and sift-down and lazy deletion; `ChannelQueue.dfy` the queue that holds back
jobs with a future eta, over shared mutable job objects. `Channels.dfy` and
`SchedulerSteps.dfy` state every operation on the tree of channels as a function or relation
on the whole memory and prove that each job object always has exactly one place.
`ChannelManager.dfy` is the same memory updated in place by recursive methods and loops,
proved against these functions. `SchedulerRuns.dfy` and `JobSelection.dfy` hold the theorems
about runs (path shape, throttle, blocked channels) and about the soundness of wake-up times,
`WakeupTimes.dfy` says which time it is.

**The run protocol** (`runner.py`, `main.py`, `job.py`) in `RunProtocol.dfy` as a state machine
of committed SQL statements, runner memory and workers, with an untrusted network: requests
may be late, doubled or lost, and a timeout may fire at any time. `RunMemory.dfy` and
`RunPlaces.dfy` prove what the steps keep, `RunTheorems.dfy` what holds over every run.
`JobRunner.dfy` is the runner as a class; each of its methods is proved to be a run of the
protocol (`RunnerLoop.dfy`). `SharedUuids.dfy` shows what a copied database does to it.
`JobAttempts.dfy` is one job object: dependencies, retries, waiting times; `Workers.dfy` proves that
an attempt of it is a run of the protocol.

**Job graphs** (`delay.py`): `Graph.dfy` (Kahn's sort, path enumeration), `Delayables.dfy` (chains
and groups compiled to one flat graph) and `GraphRuns.dfy`, which carries the meaning of a
chain/group term through to the rows of the table over every run.

**Record exchange** (`mixin.py`): `RecordPort.dfy` specifies dump and load and proves that import
keeps pace with export, `RecordRoundTrip.dfy` has the round trip and the exact condition for
it, `RecordSync.dfy` the recursion over the shared set and mapping, proved against the
specification.

**Search domains to SQL** (`expression.py`) in `SqlDomain.dfy`; **chunked imports**
(`base_import_import.py`) in `ImportChunks.dfy`.

`ChannelJobs.dfy` has what several modules share: sort keys, `__lt__`, and `PopSpec`, the one
specification of `pop` that both the queue class and the manager meet.

## Conventions

- Channels are numbered in creation order, 0 is the root; a capacity of 0 (or None) means
  unlimited, and so does a throttle of 0 mean none. Times are integers; an eta of 0 stands
  for None, as both are falsy in the program. Readings of the clock are not negative.
- A job object is identified by a serial number: a rescheduled job is a new object.
- A row is identified by its database and uuid. Several databases may store the same uuid;
  the runner's table of jobs has the uuid alone as its key, as in the program.
- Objects that nothing refers to are dropped from that table at any time in the state machine,
  and at once in `Runners.JobRunner.InitializeDatabases` (reference counting).
- The generators of `get_jobs_to_run` are consumed to their end, as the runner does unless it
  is stopped: the throttle is set after the `yield`.
- A run starts in a world that meets the invariants (the empty table with a runner that is not
  up does, `RunTheorems.InitialWorldOk`). A job's channel, key and parents do not change.
- A world has the last reading of the runner's clock and the latest one there was. The clock may go
  back; `NotStartedBeforeEta` is about runs in which it does not.
- `RunProtocol` gives each worker's open duty towards the children of a done job
  (`Owing`), and remembers in `abandoned` the jobs whose worker died or gave up.

## Where the code differs from what one would expect

- `ChannelQueue.pop` of a sequential queue compares only the job with the earliest eta with the
  best ready one (channels.py lines 337-345), so a job may pass a waiting one of higher rank:
  `SequentialQueueOvertakes` is an input, `SequentialOvertakesExactly` says when.
- The assertions of `notify` fail for a uuid that two databases share (a copied database):
  `CopiedDatabaseFails`; `NotifyAssertionsExact` and `InitializeDatabases` say when.
- `DelayableChain._head` answers with the `_tail` of the head member and `_tail` with the `_head` of
  the tail member (delay.py lines 339-343). The documentation of chains promises series order;
  it is kept exactly when `Good` holds (`CompilationExact`).
- `max_retries` is documented as the limit of attempts; a PostgreSQL conflict counts as an
  attempt but is never compared with it (main.py lines 106-117, job.py lines 518-536). See
  `RepeatedExactly` and `ConflictsRepeatForever`.
- `load` resolves a reference only to a record that is already complete, so it refuses the dump of
  any cyclic record graph (`LoadsExactlyAcyclic`).
- The last chunk of an import may be smaller than the chunk size, although the documentation
  of `_extract_chunks` speaks of a minimum: `ThreeRowsInTwos`, `LastChunkShortExactly`.
- `topological_sort` does not fail on cycles, it leaves out what is on or below one.

## Model

| member | source | states |
|---|---|---|
| `RunTheorems.CapacityNeverExceeded` | addons_OCA/queue/queue_job/jobrunner/runner.py:427-442 | End-to-end capacity: over every run (late, lost or duplicated requests, timeouts, failures and restarts included) that starts within the limits, the enqueued and started rows of a channel and of those above it, over all databases, never exceed its capacity, and every performing worker is among them |
| `RunTheorems.BusyRunsInWholePath` | addons_OCA/queue/queue_job/jobrunner/runner.py:417-462 | Over every run, an enqueued or started row of an open database that is not just being read is running in memory in every channel of its path |
| `RunTheorems.MutualExclusion` | addons_OCA/queue/queue_job/controllers/main.py:30-42 | Over every run a job has at most one worker inside `perform`, and its row is started while it has one |
| `RunTheorems.QueuedMeansPending` | addons_OCA/queue/queue_job/jobrunner/runner.py:336-344 | Why the unguarded `set_job_enqueued` is safe: over every run, a job still queued in some channel in memory is pending in the table |
| `RunTheorems.NotifyAssertionsExact` | addons_OCA/queue/queue_job/jobrunner/channels.py:1023-1032 | Over every run, a row that was read, however late it is processed, meets the two assertions of `notify` if and only if no job with its uuid of another database is in memory |
| `RunTheorems.NotifyAssertionsHold` | addons_OCA/queue/queue_job/jobrunner/channels.py:1023-1032 | Hence they hold for every row whose uuid is stored in no other database |
| `SharedUuids.CopiedDatabaseFails` | addons_OCA/queue/queue_job/jobrunner/runner.py:417-425 | A copied database: a run from the initial world in which the assertion on the database name fails while the second database is initialised |
| `SharedUuids.WaitingFirstIsHarmless` | addons_OCA/queue/queue_job/jobrunner/channels.py:801-805 | With a waiting and a pending row of the same uuid it depends on the order of the databases whether initialisation fails, because the weak table forgets a waiting job |
| `RunTheorems.NoJobForgotten` | addons_OCA/queue/queue_job/jobrunner/runner.py:417-462 | Over every run, a row of an open database without outstanding notification, selection or request has its job exactly where its state says: pending queued (with the eta of its row, or none), busy running to the root, failed in failed, else in no channel |
| `RunTheorems.PendingJobsWaitForAReason` | addons_OCA/queue/queue_job/jobrunner/channels.py:525-572 | When every channel is used up at `now`, such a pending row whose eta has come waits in a channel of its path that is full, blocked by a failed job, paused, or held back |
| `RunTheorems.FailedRowBlocksChannel` | addons_OCA/queue/queue_job/jobrunner/channels.py:516-519 | Over every run, no job is launched from a sequential channel while a settled failed row of that channel exists: where a launch happens next to one, the channel is not sequential |
| `RunTheorems.NotStartedBeforeEta` | addons_OCA/queue/queue_job/jobrunner/runner.py:427-433 | Over every run with a clock that does not go back, a job is launched from any channel only while its row is pending and has no eta or one that has come |
| `RunTheorems.DependencySafety` | addons_OCA/queue/queue_job/job.py:540-570 | Over every run, a job that has left WAIT_DEPENDENCIES has all parents done |
| `RunTheorems.NoLostWakeUp` | addons_OCA/queue/queue_job/controllers/main.py:119-126 | Over every run, a waiting job whose parents are all done has a parent whose worker still owes `enqueue_waiting`, unless a worker gave up on it or died before it |
| `RunTheorems.QuietMeansAllDone` | addons_OCA/queue/queue_job/controllers/main.py:119-156 | On acyclic dependencies, once nothing is pending, enqueued, started, failed, owed or given up, every job is done |
| `RunTheorems.RunKeepsInv` | addons_OCA/queue/queue_job/jobrunner/runner.py:507-532 | Every run keeps all invariants of table, memory, workers and dependencies, and being within the limits |
| `RunPlaces.NextWorldKeepsInv` | addons_OCA/queue/queue_job/jobrunner/runner.py:427-462 | Each single step of runner, network, timeout or worker keeps all of these invariants |
| `RunMemory.AppliedInMemory` | addons_OCA/queue/queue_job/jobrunner/runner.py:452-460 | What one processed row changes in memory: only the job of that row, and how the state of the row decides whether it runs |
| `RunMemory.ScheduledInMemory` | addons_OCA/queue/queue_job/jobrunner/runner.py:427-433 | A scheduling step queues nothing new, stops nothing, and exactly a launch from the root takes a queued job to running |
| `RunProtocol.RowsMove` | addons_OCA/queue/queue_job/controllers/main.py:74-158 | The only changes of state a row makes, over all steps of the protocol, exceptions and conflicts before the started commit included |
| `RunProtocol.EtasStay` | addons_OCA/queue/queue_job/job.py:540-563 | No step of the protocol, waking the children of a done job included, changes the eta of a row, except postponing the job itself and the conflict before its started commit |
| `RunProtocol.GivesUpLate` | addons_OCA/queue/queue_job/controllers/main.py:44-72 | A worker leaves the children of its done job without wake-up only if it dies or after a sixth serialization failure |
| `Workers.RunJob` | addons_OCA/queue/queue_job/controllers/main.py:74-158 | One attempt of the job object is a run of the protocol that touches no other row and no other worker: by outcome the row ends done, failed or pending (5 seconds later after a conflict), and exactly a success or nothing to do owes `enqueue_waiting` |
| `Runners.JobRunner.RunJobs` | addons_OCA/queue/queue_job/jobrunner/runner.py:427-442 | `run_jobs` is a run of the protocol that keeps all limits; exactly the rows of the jobs yielded by the root channel become enqueued and are notified; every channel is used up |
| `Runners.JobRunner.ProcessNotification` | addons_OCA/queue/queue_job/jobrunner/runner.py:454-462 | Handling one notification is a run of the protocol that keeps all limits and puts the job in place; it fails exactly when a job with this uuid of another database is in memory; without a row the job of this uuid is removed |
| `Runners.JobRunner.InitializeDatabases` | addons_OCA/queue/queue_job/jobrunner/runner.py:417-425 | Opening the databases one after the other is a run of the protocol that keeps all limits; an assertion fails if and only if two databases store the same uuid in unfinished rows and the row of the first one does not wait for dependencies; otherwise every row without a new notification has its job in place |
| `Runners.JobRunner.Recover` | addons_OCA/queue/queue_job/jobrunner/runner.py:507-532 | After any failure, initialisation fails again exactly under the same condition on the tables |
| `Runners.JobRunner.CloseDatabases` | addons_OCA/queue/queue_job/jobrunner/runner.py:407-415 | Closing the databases empties the memory and is a run of the protocol that keeps all limits |
| `RunnerLoop.RunJobsIsARun` | addons_OCA/queue/queue_job/jobrunner/runner.py:427-442 | Any sequence of scheduling steps, with each job of the root channel requested before the next step, is a run whose end depends only on the memory reached |
| `GraphRuns.DelayedOrderEnforced` | addons_OCA/queue/queue_job/delay.py:257-300 | Over every run in which a chain/group term that is joined completely was delayed, no job leaves WAIT_DEPENDENCIES before every job that precedes it in series is done |
| `GraphRuns.DelayedTermCompletes` | addons_OCA/queue/queue_job/delay.py:257-300 | No delayed term can leave jobs waiting for each other: when nothing is left to do and nothing failed, all its jobs are done |
| `GraphRuns.Delay` | addons_OCA/queue/queue_job/delay.py:257-300 | `delay` compiles the term and stores its jobs in one step of the protocol, with one parent for each edge of the compiled graph; each row has the channel, key and eta it was delayed with and waits exactly if it has a parent; older rows are unchanged |
| `GraphRuns.SeriesOrderEnforced` | addons_OCA/queue/queue_job/job.py:540-570 | The same order for any world that holds the graph of the term |
| `SchedulerSteps.NextKeepsInv` | addons_OCA/queue/queue_job/jobrunner/channels.py:463-514 | Every operation of the manager keeps the invariant that each job object has exactly one place in the tree of channels |
| `SchedulerSteps.NotifyWorks` | addons_OCA/queue/queue_job/jobrunner/channels.py:1023-1061 | `notify` touches only the notified job, leaves one current object with the notified properties, and puts it exactly where the notified state says; the object is kept exactly if sequence, priority, eta and channel are unchanged and else replaced by a new one |
| `SchedulerSteps.RemoveJobWorks` | addons_OCA/queue/queue_job/jobrunner/channels.py:1063-1067 | `remove_job` takes the job out of the table and of every channel and leaves all others alone |
| `SchedulerSteps.LaunchWorks` | addons_OCA/queue/queue_job/jobrunner/channels.py:562-572 | A launched job moves exactly one channel towards the root; no other job moves |
| `SchedulerSteps.HeapKeysNeverChange` | addons_OCA/queue/queue_job/jobrunner/channels.py:332-336 | Over all steps, the sort key of an entry that stays in a heap never changes, lazily removed entries included: etas are cleared outside the heaps |
| `SchedulerRuns.PathShape` | addons_OCA/queue/queue_job/jobrunner/channels.py:463-514 | In every reachable state a job is nowhere, failed in its own channel, running in a prefix of its path and queued next, or running down to the root; in a channel it is in at most one of the three sets; one live object per uuid |
| `SchedulerRuns.LaunchRespectsCapacity` | addons_OCA/queue/queue_job/jobrunner/channels.py:516-523 | No launch raises a running count above the capacity, and launches elsewhere do not change it |
| `SchedulerRuns.BlockedNeverLaunches` | addons_OCA/queue/queue_job/jobrunner/channels.py:516-523 | Over every run of the manager no job is launched from a sequential channel that has a failed job, nor from one that is at its capacity |
| `SchedulerRuns.PausesForThrottle` | addons_OCA/queue/queue_job/jobrunner/channels.py:545-572 | Over every run the end of a pause is exactly the time of the last launch of that channel plus its throttle |
| `SchedulerRuns.ThrottleKept` | addons_OCA/queue/queue_job/jobrunner/channels.py:545-572 | Over every run with a clock that never goes back, two launches of a throttled channel are at least `throttle` apart, whatever is notified in between |
| `SchedulerRuns.PauseLasts` | addons_OCA/queue/queue_job/jobrunner/channels.py:545-572 | After a launch the channel stays paused until a clock reading reaches the end of the pause |
| `Channels.SetPendingWorks` | addons_OCA/queue/queue_job/jobrunner/channels.py:479-491 | `set_pending` puts the job into the queue of its own channel and nowhere else (no change when it is queued there already) |
| `Channels.SetRunningWorks` | addons_OCA/queue/queue_job/jobrunner/channels.py:493-504 | `set_running` leaves a job that is queued further down where it is and otherwise makes it run in its whole path |
| `Channels.SetFailedWorks` | addons_OCA/queue/queue_job/jobrunner/channels.py:506-514 | `set_failed` leaves the job failed in its own channel and nowhere else |
| `Channels.RemoveWorks` | addons_OCA/queue/queue_job/jobrunner/channels.py:463-469 | `remove` on the own channel takes the job out of the whole tree |
| `Manager.ChannelManager.GetJobsToRun` | addons_OCA/queue/queue_job/jobrunner/channels.py:525-572 | Consumed to its end: only the subtree changes and its jobs reach the parent queue; no job twice, none that ran already; jobs in order of priority, date and sequence; no running count above max(before, capacity); a sequential channel with a failed job yields nothing and keeps its running jobs; every channel of the subtree is used up; nothing is yielded by a silent tree |
| `Manager.ChannelManager.Drain` | addons_OCA/queue/queue_job/jobrunner/channels.py:561-572 | The yielding loop of one channel: ends, yields in order, and leaves the channel full, paused or with nothing to give |
| `Manager.ChannelManager.PopQueue` | addons_OCA/queue/queue_job/jobrunner/channels.py:332-346 | Taking a job from a channel of the manager meets the same specification as `ChannelQueue.pop` |
| `Manager.ChannelManager.Ripen` | addons_OCA/queue/queue_job/jobrunner/channels.py:333-336 | Job by job in the order of the etas, exactly the due jobs lose their eta and become ready |
| `Manager.ChannelManager.Collect` | addons_OCA/queue/queue_job/jobrunner/channels.py:801-805 | The weak table drops a job object exactly when no channel refers to it, not even as a removed heap entry |
| `Manager.ChannelManager.GetWakeupTime` | addons_OCA/queue/queue_job/jobrunner/channels.py:574-592 | Computes the specified wake-up time of the tree |
| `Manager.ChannelManager.SleepLosesNothing` | addons_OCA/queue/queue_job/jobrunner/runner.py:473-489 | After an exhausted call the wake-up time is 0 or ahead of now (no busy loop), and a call at any time before it, with nothing notified, yields nothing (no lost wake-up) |
| `Manager.ChannelManager.NotifyJob` | addons_OCA/queue/queue_job/jobrunner/channels.py:1023-1061 | The in-place `notify` computes the specified new memory and keeps the invariant |
| `Manager.ChannelManager.MarkPending` | addons_OCA/queue/queue_job/jobrunner/channels.py:479-491 | In-place `set_pending` computes its specification |
| `Manager.ChannelManager.MarkRunning` | addons_OCA/queue/queue_job/jobrunner/channels.py:493-504 | In-place recursive `set_running` computes its specification |
| `Manager.ChannelManager.MarkFailed` | addons_OCA/queue/queue_job/jobrunner/channels.py:506-514 | In-place `set_failed` computes its specification |
| `Manager.ChannelManager.Remove` | addons_OCA/queue/queue_job/jobrunner/channels.py:463-469 | In-place recursive `remove` computes its specification |
| `Manager.ChannelManager.RemoveUuid` | addons_OCA/queue/queue_job/jobrunner/channels.py:1063-1067 | In-place `remove_job` computes its specification and keeps the invariant |
| `Manager.ChannelManager.RemoveDb` | addons_OCA/queue/queue_job/jobrunner/channels.py:1069-1073 | Afterwards no job of the database is known or in any channel; jobs of other databases are where they were |
| `Manager.HarvestComposes` | addons_OCA/queue/queue_job/jobrunner/channels.py:541-572 | Consuming all children, then clearing the pause, then draining the own queue uses up the whole subtree |
| `JobSelection.WakeupSound` | addons_OCA/queue/queue_job/jobrunner/channels.py:574-592 | On a used-up tree the wake-up time is 0 or ahead of now, and the tree stays silent at every time before it (at all times if it is 0) |
| `WakeupTimes.WakeupExactly` | addons_OCA/queue/queue_job/jobrunner/channels.py:574-592 | The wake-up time is the earliest one asked for, 0 exactly when none is: the end of the pause of a channel that is not full, or the eta of a waiting job of a channel that is neither full nor paused, with no full and no paused channel between it and the asked one |
| `JobSelection.WorkConserved` | addons_OCA/queue/queue_job/jobrunner/channels.py:516-572 | A used-up channel that is neither throttled nor sequential is at capacity or has no queued job ready now |
| `ChannelJobs.BeforeIsStrictWeakOrder` | addons_OCA/queue/queue_job/jobrunner/channels.py:214-225 | `__lt__` is a strict weak order over jobs with and without eta |
| `ChannelJobs.KeyOrder` | addons_OCA/queue/queue_job/jobrunner/channels.py:214-225 | Jobs are ranked by priority, then creation date, then sequence, the smaller one first |
| `ChannelJobs.EtaOrder` | addons_OCA/queue/queue_job/jobrunner/channels.py:214-225 | A job with an eta is before one without, the earlier eta is before the later one, and equal etas leave it to the key |
| `ChannelJobs.PoppedIsFirst` | addons_OCA/queue/queue_job/jobrunner/channels.py:332-346 | No job that was ready or due has a smaller priority number than the popped one, nor the same and an earlier date, nor both the same and a smaller sequence |
| `ChannelJobs.HeldBackByAny` | addons_OCA/queue/queue_job/jobrunner/channels.py:337-345 | The sequential test of `pop` does not depend on which of several equal heads the heaps show |
| `ChannelJobs.SequentialOvertakesExactly` | addons_OCA/queue/queue_job/jobrunner/channels.py:337-346 | A sequential `pop` lets a job pass a waiting one of higher rank if and only if the waiting job with the earliest eta does not outrank the best ready one but another waiting job does |
| `ChannelJobs.OvertakesExactly` | addons_OCA/queue/queue_job/jobrunner/channels.py:332-346 | The same for any queue, in terms of the ready and due jobs before the call |
| `ChannelJobs.SequentialQueueOvertakes` | addons_OCA/queue/queue_job/jobrunner/channels.py:337-346 | A concrete sequential queue that gives a job although a waiting one outranks it |
| `ChannelQueues.ChannelQueue.Pop` | addons_OCA/queue/queue_job/jobrunner/channels.py:332-346 | No job lost or duplicated; exactly the due jobs become ready and lose their eta; the result is first by priority, creation date and sequence among ready and due jobs; None only if no job is ready or, when sequential, the earliest waiting job outranks the best ready one; exactly when a job passes a waiting one of higher rank |
| `ChannelQueues.PopAmong` | addons_OCA/queue/queue_job/jobrunner/channels.py:332-346 | With several channels sharing job objects, `pop` on one queue keeps the heaps of all others sound and their contents unchanged |
| `ChannelQueues.PassOn` | addons_OCA/queue/queue_job/jobrunner/channels.py:542-544 | A job popped from one queue and added to another: nothing else changes in any queue and all heaps stay sound |
| `ChannelQueues.ChannelQueue.Ripen` | addons_OCA/queue/queue_job/jobrunner/channels.py:333-336 | The first loop of `pop` moves exactly the due jobs and clears exactly their etas |
| `ChannelQueues.ChannelQueue.Add` | addons_OCA/queue/queue_job/jobrunner/channels.py:322-326 | A job with an eta joins the waiting jobs, any other the ready ones; nothing else changes |
| `ChannelQueues.ChannelQueue.Remove` | addons_OCA/queue/queue_job/jobrunner/channels.py:328-330 | The job leaves both parts; nothing else changes |
| `ChannelQueues.ChannelQueue.GetWakeupTime` | addons_OCA/queue/queue_job/jobrunner/channels.py:348-354 | The earlier of the given time (0 is none) and the earliest eta waited for |
| `PriorityQueues.PriorityQueue.Pop` | addons_OCA/queue/queue_job/jobrunner/channels.py:93-104 | Lazy deletion refines a set with minimum: a least live element leaves, None exactly when there is none |
| `PriorityQueues.PriorityQueue.Peek` | addons_OCA/queue/queue_job/jobrunner/channels.py:57-70 | `[0]` shows a least live element and does not change the abstract content, whatever removed entries it drops |
| `PriorityQueues.PriorityQueue.Add` | addons_OCA/queue/queue_job/jobrunner/channels.py:75-83 | Adds to the abstract set, also taking back an earlier removal, and keeps each known object once in the heap |
| `PriorityQueues.PriorityQueue.Remove` | addons_OCA/queue/queue_job/jobrunner/channels.py:85-91 | Removes from the abstract set without touching the heap |
| `PriorityQueues.PriorityQueue.Length` | addons_OCA/queue/queue_job/jobrunner/channels.py:54-55 | The number of live elements |
| `PriorityQueues.PriorityQueue.Contains` | addons_OCA/queue/queue_job/jobrunner/channels.py:72-73 | Membership in the abstract set |
| `PriorityQueues.HeapPush` | addons_OCA/queue/queue_job/jobrunner/channels.py:75-83 | Pushing keeps heap order and adds exactly one entry |
| `PriorityQueues.HeapPop` | addons_OCA/queue/queue_job/jobrunner/channels.py:93-104 | Popping returns the root, keeps heap order and removes exactly that entry |
| `PriorityQueues.RootIsLeast` | addons_OCA/queue/queue_job/jobrunner/channels.py:57-70 | In an ordered heap no entry precedes the root |
| `Graphs.Graph.TopologicalSort` | addons_OCA/queue/queue_job/delay.py:125-145 | On any graph with all edge targets among the vertices: ends, and yields, once each and after all their parents, exactly the vertices with no cycle at or above them |
| `Graphs.Graph.SortAcyclic` | addons_OCA/queue/queue_job/delay.py:125-145 | On an acyclic graph the sort yields every vertex exactly once |
| `Graphs.OrderedNotBelowCycle` | addons_OCA/queue/queue_job/delay.py:125-145 | No order with parents first can hold a vertex that is on or below a cycle |
| `Graphs.TrappedBelowCycle` | addons_OCA/queue/queue_job/delay.py:125-145 | Vertices that each have a parent among themselves are on or below a cycle |
| `Graphs.Graph.RootVertices` | addons_OCA/queue/queue_job/delay.py:147-155 | Exactly the vertices that are no child of any vertex |
| `Graphs.Graph.CountParents` | addons_OCA/queue/queue_job/delay.py:132-134 | The count of every vertex is its number of parents |
| `Graphs.Graph.AddVertex` | addons_OCA/queue/queue_job/delay.py:69-74 | Adds the vertex and no edge |
| `Graphs.Graph.AddEdge` | addons_OCA/queue/queue_job/delay.py:76-82 | Adds both vertices and exactly one edge |
| `Graphs.Paths` | addons_OCA/queue/queue_job/delay.py:98-123 | Yields, once each, exactly the maximal paths without repeated vertex that start at the vertex |
| `Graphs.PathSearch.Search` | addons_OCA/queue/queue_job/delay.py:107-123 | Ends, restores `path` and `seen`, and yields, once each, exactly the maximal simple paths that extend the current one |
| `Delayables.CompilationExact` | addons_OCA/queue/queue_job/delay.py:172-212 | The compiled graph never orders two jobs against the series order, and it reaches all of that order if and only if adjacent chain members are joined completely (a property of the term alone) |
| `Delayables.NestedChainLosesOrder` | addons_OCA/queue/queue_job/delay.py:339-343 | A chain at the end of a chain loses ordering: a concrete term where a job does not wait for one that precedes it |
| `Delayables.SimpleEndsAreGood` | addons_OCA/queue/queue_job/delay.py:339-343 | If the first and the last member of every chain contain no chain, everything is joined completely |
| `Delayables.EndsMeaning` | addons_OCA/queue/queue_job/delay.py:339-395 | When the crossed `_head` and `_tail` of a term answer with all its first and all its last jobs |
| `Delayables.ReachedIsBefore` | addons_OCA/queue/queue_job/delay.py:328-343 | A job reached from another comes after it in series; so the compiled graph has no cycle |
| `Delayables.GoodIsComplete` | addons_OCA/queue/queue_job/delay.py:172-212 | In a completely joined term every pair in series order is connected |
| `Delayables.CompleteIsGood` | addons_OCA/queue/queue_job/delay.py:172-212 | If every pair in series order is connected, the term is completely joined |
| `Delayables.MergeGraph` | addons_OCA/queue/queue_job/delay.py:172-186 | Merging adds exactly the links between neighbours and the tails as vertices |
| `Delayables.ConnectGraphs` | addons_OCA/queue/queue_job/delay.py:188-212 | The worklist ends; the graph has exactly the jobs of the term as vertices and exactly the intended edges, all between vertices |
| `Delayables.CompiledAcyclic` | addons_OCA/queue/queue_job/delay.py:188-212 | The compiled graph of a well-formed term is acyclic |
| `Delayables.ExecutionOrder` | addons_OCA/queue/queue_job/delay.py:302-304 | Direct execution runs every job once, after all it depends on, and after all that precede it in series if the term is joined completely |
| `JobAttempts.JobRecord.AddDepends` | addons_OCA/queue/queue_job/job.py:502-511 | Refuses a job as its own parent without any change; otherwise adds the parents, keeps the links between all jobs mutual, and makes the job wait if a new parent is not done |
| `JobAttempts.JobRecord.SetPending` | addons_OCA/queue/queue_job/job.py:795-808 | Pending, or waiting if some parent is not done; the retry count is reset only on request |
| `JobAttempts.JobRecord.Attempt` | addons_OCA/queue/queue_job/controllers/main.py:98-152 | One attempt by outcome: done exactly after a success or nothing to do; failed after an error, or a counting retryable error that reaches `max_retries`; otherwise pending again (or waiting, if a parent is unfinished), after 5 seconds for a conflict and else after the right waiting time; the retry count goes up exactly when `perform` was entered and did not ignore it |
| `JobAttempts.RepeatedExactly` | addons_OCA/queue/queue_job/job.py:513-536 | A job is attempted again after all of a sequence of outcomes if and only if each is a retryable error or a conflict and no counting error came when, with the conflicts during `perform` before it, it made up `max_retries`; the retry count is the number of both |
| `JobAttempts.RetriesAreBounded` | addons_OCA/queue/queue_job/job.py:513-536 | Without conflicts during `perform` a job still to be repeated has had fewer than `max_retries` counting errors |
| `JobAttempts.ConflictsRepeatForever` | addons_OCA/queue/queue_job/controllers/main.py:106-117 | Conflicts are repeated any number of times, whatever `max_retries` is |
| `JobAttempts.GetRetrySeconds` | addons_OCA/queue/queue_job/job.py:844-859 | A given waiting time wins unless 0; else the pattern entry of the highest retry count reached; else 600 seconds; from an interval any number of seconds in it |
| `JobAttempts.EnqueueDependentJobs` | addons_OCA/queue/queue_job/controllers/main.py:44-72 | `enqueue_waiting` is executed at most six times and works if and only if one of the first six executions works after serialization failures only |
| `RecordRoundTrip.LoadsExactlyAcyclic` | addons_zync/queue/zbsync_xport/models/mixin.py:229-251 | Loading a dump succeeds if and only if no reachable record leads back to itself; otherwise it ends in the KeyError |
| `RecordRoundTrip.RoundTrip` | addons_zync/queue/zbsync_xport/models/mixin.py:229-251 | Loading a dump imports every reachable record exactly once, at the id of its uuid or a new one (sharing kept), and leaves everything else unchanged; in every imported record, new or existing, a set scalar has the exported value, an unset one the old value, a many2one the imported target or none, a relation to many the old members and the imported ones; uuids stay unique |
| `RecordRoundTrip.TransferredIsLoaded` | addons_zync/queue/zbsync_xport/models/mixin.py:317-333 | Whatever is transferred has, field by field, the value of the store: a set scalar is written and an unset one leaves the old value; a many2one leads to the imported record or to none; a relation to many has its old members and the imported ones |
| `RecordRoundTrip.FreshCopy` | addons_zync/queue/zbsync_xport/models/mixin.py:229-251 | In a database without these uuids the result is an isomorphic copy with one new record for each exported one |
| `RecordRoundTrip.LoadIsIdempotent` | addons_zync/queue/zbsync_xport/models/mixin.py:302-313 | Loading the same data again creates no record and changes nothing |
| `RecordRoundTrip.MutualReferencesDoNotLoad` | addons_zync/queue/zbsync_xport/models/mixin.py:262-265 | Two records that refer to each other are dumped but cannot be loaded |
| `RecordRoundTrip.SuccessRanks` | addons_zync/queue/zbsync_xport/models/mixin.py:391-444 | From every successful load an order of the records is obtained in which references only go down |
| `RecordPort.ExportedIsReachable` | addons_zync/queue/zbsync_xport/models/mixin.py:79-123 | A dump exports exactly what is reachable from the root |
| `RecordPort.EachExportedOnce` | addons_zync/queue/zbsync_xport/models/mixin.py:84-87 | Every reachable record is in the data in full exactly once |
| `RecordPort.LoadRecDumped` | addons_zync/queue/zbsync_xport/models/mixin.py:391-408 | Import keeps pace with export: every reference to a record exported before finds it in the mapping |
| `RecordPort.UpsertImports` | addons_zync/queue/zbsync_xport/models/mixin.py:317-333 | Writing or creating one more record keeps all imported ones as they are |
| `RecordPort.FindFresh` | addons_zync/queue/zbsync_xport/models/mixin.py:323-328 | A record not imported yet is found only where it was before the import |
| `RecordSync.Exporter.ExportRec` | addons_zync/queue/zbsync_xport/models/mixin.py:79-123 | The recursion over the shared set of exported records computes the specified data and set |
| `RecordSync.Exporter.ExportFields` | addons_zync/queue/zbsync_xport/models/mixin.py:88-121 | The loop over the fields computes its specification |
| `RecordSync.Exporter.ExportAll` | addons_zync/queue/zbsync_xport/models/mixin.py:176-187 | The loop over the members of a relation, in the order of their ids, computes its specification |
| `RecordSync.DumpRecord` | addons_zync/queue/zbsync_xport/models/mixin.py:73-77 | `dump` computes the specified data |
| `RecordSync.Importer.ConvertDict` | addons_zync/queue/zbsync_xport/models/mixin.py:391-444 | Finds the record in the mapping, or raises, or returns the values of the fields with all their records imported |
| `RecordSync.Importer.ImportRec` | addons_zync/queue/zbsync_xport/models/mixin.py:335-370 | Convert, write or create, and enter in the mapping, as specified |
| `RecordSync.Importer.ImportMany` | addons_zync/queue/zbsync_xport/models/mixin.py:279-315 | The same for every member of a relation in order |
| `RecordSync.Importer.LoadRecord` | addons_zync/queue/zbsync_xport/models/mixin.py:229-251 | `load` computes the database and id that `RoundTrip` describes field by field, or raises exactly when `LoadsExactlyAcyclic` says for a dump |
| `SqlDomain.Resolve` | addons_zync/queue/zbsync_sql/models/expression.py:85-121 | Ends on every list; on the prefix notation of a tree gives the one expression that mirrors the tree, or NotImplementedError exactly when some leaf has an unknown operator |
| `SqlDomain.MirrorKeepsTruth` | addons_zync/queue/zbsync_sql/models/expression.py:100-119 | Swapping the operands of every operator does not change the truth of the condition |
| `SqlDomain.ReduceProgress` | addons_zync/queue/zbsync_sql/models/expression.py:96-117 | Replacing the rightmost operator and its operands by an expression keeps what the list stands for |
| `SqlDomain.StackOfPrefix` | addons_zync/queue/zbsync_sql/models/expression.py:85-121 | The prefix notation of a tree, read from the right, stands for its mirror image |
| `SqlDomain.ParamsMatchPlaceholders` | addons_zync/queue/zbsync_sql/models/expression.py:31-43 | The parameters are, one for one and left to right, the values of the placeholders in the text |
| `SqlDomain.GetClause` | addons_zync/queue/zbsync_sql/models/expression.py:63-83 | For a well-formed domain with known operators, the text, with "and", "or" and parentheses read literally, means what the domain means, and the parameters are the values of its placeholders; fails exactly on unknown operators |
| `SqlDomain.TextMeansDomain` | addons_zync/queue/zbsync_sql/models/expression.py:37-38 | Read with "and" as conjunction, "or" as disjunction and parentheses as grouping, the text has the truth value of the domain, whatever its clauses mean |
| `SqlDomain.ClauseText` | addons_zync/queue/zbsync_sql/models/expression.py:138-176 | The text of a clause in each case: null with "is" or "is not" for equality, true and false written out, "<>" for "!=", "(1=0)" for "in" with nothing, and a placeholder for any other value |
| `SqlDomain.KnownOperators` | addons_zync/queue/zbsync_sql/models/expression.py:178-195 | Exactly which operators are accepted; all others raise |
| `SqlDomain.TextIsTokens` | addons_zync/queue/zbsync_sql/models/expression.py:37-38 | The text is fully parenthesised infix notation |
| `SqlDomain.ReadsBack` | addons_zync/queue/zbsync_sql/models/expression.py:37-38 | This notation can be read in one way only, as the expression it was written from |
| `ImportChunks.ExtractChunks` | addons_OCA/queue/base_import_async/models/base_import_import.py:112-123 | The chunks are consecutive, cover all rows, end with records, have at least the chunk size except perhaps the last, and end as early as that allows |
| `ImportChunks.ChunkingIsUnique` | addons_OCA/queue/base_import_async/models/base_import_import.py:112-123 | There is only one such way to cut the rows |
| `ImportChunks.LastChunkShortExactly` | addons_OCA/queue/base_import_async/models/base_import_import.py:112-123 | The last chunk is smaller than the chunk size if and only if rows are left over when the lengths of the records are added up and started anew at every full chunk |
| `ImportChunks.RestOfSingleRows` | addons_OCA/queue/base_import_async/models/base_import_import.py:112-123 | For one-row records the rows left over are the remainder of the number of rows by the chunk size |
| `ImportChunks.ThreeRowsInTwos` | addons_OCA/queue/base_import_async/models/base_import_import.py:112-123 | A concrete file whose last chunk is too small |
| `ImportChunks.RecordsStayWhole` | addons_OCA/queue/base_import_async/models/base_import_import.py:112-123 | No record is split between chunks |
| `ImportChunks.SplitFile` | addons_OCA/queue/base_import_async/models/base_import_import.py:125-169 | The jobs carry the rows of the chunks with priorities counting up from the first; together they carry the whole file in order |
| `ImportChunks.DeliveredInFileOrder` | addons_OCA/queue/queue_job/jobrunner/channels.py:332-346 | Once all chunk jobs are queued, successive pops deliver them in file order, sequential or not, whatever the clock |
| `ImportChunks.EarlierChunkFirst` | addons_OCA/queue/queue_job/jobrunner/channels.py:332-346 | While an earlier chunk is ready no later one is delivered, whatever else is queued |

## Left out

- Real HTTP, psycopg2, select(), threads, logging and exceptions of the operating system; each
  SQL statement is one atomic guarded step.
- Manual requeue, cancel and done, the stuck-job and autovacuum crons, job deletion and the cron
  job runner: several theorems over runs are false with them. So no row is ever CANCELLED or
  removed in `RunProtocol`.
- More than one runner at a time, and databases that appear while the runner is up.
- Runners.JobRunner.RunJobs: a stop request in its middle is not modelled, nor is sending the
  request: in the state machine a worker may start on any enqueued row at any time.
- `Runners.JobRunner`: inside one method call no other actor moves; interleavings with workers
  and timeouts are covered by the state machine, of which the methods are runs.
- Runners.JobRunner.ProcessNotification: that a notification without a row may remove the job of
  another database with the same uuid is stated, but rows are never deleted in `RunProtocol`.
- `RunProtocol`: dates, results, exception texts and worker pids of rows are left out.
- Channel objects of the manager are entries of a sequence in it and parent links are indices,
  so aliasing between channels is not modelled at that level; `ChannelQueue`, `PriorityQueue`
  and their job objects are real shared objects.
- Manager.ChannelManager.PopQueue: picks from sets; the heaps with their shared entries are in the
  queue class and in `PopAmong`.
- PriorityQueues.HeapPop: the sift strategy is the textbook one; heapq's bottom-up variant is not
  modelled (same contract).
- Channel names, automatic creation, `parent_fallback` and the configuration strings: each job's
  channel is fixed.
- An unknown state passed to `notify` (it is only logged), and the log messages.
- Identity keys: `delay` creates all jobs of a graph. Empty chains (an error) and empty groups are
  not well formed here, and terms do not share jobs.
- `on_done` edges added to a chain, group or job by hand: terms are built by nesting only.
- JobAttempts.GetRetrySeconds: an interval whose lower end is above its upper end, for which the
  random choice raises, is excluded.
- RecordPort.LoadRecDumped: all records use the mixin; references by xmlid or by name, custom rules,
  the retry list for names not found, default values, and fields computed by the ORM (the other
  side of a one2many) are left out. Records of all models share one number space and one order
  of fields.
- RecordRoundTrip.RoundTrip: a database where two records have the same uuid, which the unique
  constraint forbids, is excluded.
- SqlDomain.Resolve: normalising a domain, distributing "!" (done by Odoo before), quoting of field names
  and the placeholder of the dialect are left out; on lists that are no prefix notation only
  termination is stated.
- SqlDomain.ReadsBack: unique reading is stated for the tokens, each clause being one token; the
  characters of field names and operators are not read.
- ImportChunks.ExtractChunks: the record ranges come from `_extract_records`, which is not part of this
  model; they are taken to be contiguous and to cover the file. CSV encoding, attachments and
  descriptions are left out.
- Everything else in the repository: web client, views, wizards, SOAP, file, CSV and Excel
  workers, pipelines and their batches, mapper and dumper rules.
