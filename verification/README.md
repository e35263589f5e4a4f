# DASS task scheduling: a verified model

DASS runs jobs as containers. Its scheduling core is four linked state machines over one
task table, one jobs table and three queues: workers claim and run tasks under a timed
lease, a leader-elected scheduler fires cron jobs from an in-memory heap, a second pass
fires jobs whose upstream jobs have succeeded, and the API edits the dependency graph. This
project models those machines and proves what they keep over every run.

`dafny verify dfyconfig.toml` checks everything.

## Layout

| file | content |
|---|---|
| `Tasks.dfy` | task rows, statuses, the single-row writes, routing by row |
| `Lease.dfy` | the lease protocol as interleaved steps: receive, claim, miss, re-read, lookup, heartbeat, result, delete, crash, recovery read and write, manual retry, job removal, time |
| `LeaseSafety.dfy`, `LeaseMail.dfy` | the two inductive invariants: claims and timing, messages and routing |
| `LeaseTheorems.dfy`, `LeaseRecovery.dfy`, `RetryChains.dfy` | status histories, final results, no lost task, routing, the crash bound, retry chains |
| `LeaseResults.dfy` | where each recorded result came from |
| `LeaseLimits.dfy` | these guarantees hold exactly within the timing budget and without overlapping recovery passes |
| `Worker.dfy`, `TaskRepository.dfy` | the worker's loops and the repository's writes as the program runs them |
| `CronScheduler.dfy`, `CronReplicas.dfy` | the heap and cache as an index of the jobs table; many replicas, one table |
| `Chaining.dfy`, `Propagation.dfy`, `FanIn.dfy`, `DependencyScheduler.dfy` | dependency passes over whole runs, and the pass as the program runs it |
| `LeaseChaining.dfy` | lease runs, interleaved with dependency passes, are runs of the chaining model |
| `Graph.dfy`, `JobService.dfy` | descendant closure, the local cycle check, job create, update and delete |
| `LeaderLock.dfy` | leader election on a session-level advisory lock |
| `Counting.dfy` | finite cardinalities |

## The main results

- **The lease guarantees have an exact limit.** The result write and the recovery write are
  unconditional, so nothing but time and fencing separates two workers.
  `LeaseLimits.SafeExactlyWithinBudget` shows, for every `claim_seconds`, delay bound *d* and
  bound *m* on lock extensions that fail in a row, that each of four guarantees - no task has
  two live holders, recovery resets only dead workers' rows, results are final, no task is
  lost - holds in all runs **if and only if** 2.0 s of lookup backoff + *d* + (*m* + 1) *
  (max(1, floor(0.6 * claim_seconds)) + *d*) fits in `claim_seconds` **and** no recovery pass
  starts while another one is under way. `LeaseLimits.ApartIsExact` refines the second half:
  in a given state the passes under way are harmless exactly when no two of them have the same
  row left to write. The code does not enforce this: `Leadership.OldLeaderActsOn` shows a
  former leader in the middle of a cycle while its successor already leads.
- **Cron at most once, with any number of replicas.** However old a replica's heap and cache,
  every leader cycle fires exactly what a scan of the whole table would. The firings of each
  job strictly increase, in all runs, if and only if cron changes read the clock at the moment
  they become visible (`CronReplicas.OnceExactlyWithoutLag`); one millisecond of lag is enough
  for a repeated firing. The incremental sync equals a full rescan, and its overlap is exact.
- **Dependency chaining is bounded and never repeats.** Ready times of a job's triggers
  strictly increase, a fan-in round fires exactly once in every interleaving, and on an
  acyclic graph the number of runs is bounded by recursion on topological rank.
- **A check on the edited job alone keeps the whole graph acyclic**, and accepts exactly the
  edits that do.
- **Leadership changes hands only through the loss of a session.**

## Reading the model

Time is integer milliseconds on one shared clock that never goes back.

*Lease.* `delay` bounds the database and queue time within one phase of a live handler: from
taking the claim's timestamp to the end of the job lookup (backoff excluded), from the end of
a heartbeat's sleep to the end of its extension attempts, or to the result commit if the
execution ends just then and cancels the heartbeat, and from the end of execution to the result
commit. `misses` bounds the lock extensions that fail in a row; extending the message's
visibility may fail at any time. A handler that exceeds these bounds is a crashed one.
Everything else may be arbitrarily late: message receipt, claim attempts, recovery reads and
writes, message deletion. Crashes happen at any point except between a row commit and its send
and between the two commits of `_handle_failure`. Recovery passes read once and then write row
by row, unconditionally; `overlap` says whether one may start while another is under way, and
results that need it say `FencedTo`: no two passes have the same row left to write, which one
pass at a time gives. `worker_id` need not be unique. `0.6 * claim_seconds` is computed exactly.
`Row.origin` is history kept for the proofs; the program does not store it.

*Cron.* `next_cron_time` is any function whose result is strictly after its base and on a
whole second; where exactness needs it, also the least such firing. A leader cycle (sync, then
dispatch) is one step. A sync reads the table as committed. An API write carries an `updated_at`
stamp at most 10 s old when it becomes visible, and either computes the next firing from a clock
value `base` read at any time or leaves the schedule alone. The heap is a bag from which
the least entry is popped.

*Chaining.* A pass is one step. Created tasks carry the pass's time. The graph may change
between passes unless a theorem fixes it. Ties in `created_at` are broken arbitrarily, both in
the 100-row batch and in the newest task per job.

*Jobs.* Each check-and-commit is one step. The cron library and the action compiler are
parameters. `strip` removes blanks, tabs and line ends. Both sides of a
dependency are kept in step, so a job named as its own upstream is dropped again when its
downstreams are sent too.

*Leader lock.* The outcome of each statement, of connecting and of closing is chosen by the
environment: a statement may work, fail because its session is lost, or fail on a session that
lives on (having run or not); closing may return the session to the pool, end it, or leak it.

Where code and documentation differ, the code is followed: the status diagram's note calls
`failed` "not terminal", but the code never moves a failed row, lets its message go, and
starts retries as new rows, so `Terminal` includes `failed`. The documented promise that the
conditional claim alone "makes duplicate execution impossible" does not hold without the
timing budget and fenced recovery (`LeaseLimits.NoBudgetIsUnsafe`,
`LeaseLimits.OverlapIsUnsafe`).

## Model

| member | source | states |
|---|---|---|
| LeaseLimits.SafeExactlyWithinBudget | backend/app/services/worker_service.py:196-231 | for every claim time, delay, bound on failed extensions and overlap setting: no task ever has two live holders, recovery resets only running rows without one, results are final, and every unsettled task has a message - each in all runs if and only if, in milliseconds, 2000 + delay + (misses + 1) * (1000 * max(1, floor(3 * claim_seconds / 5)) + delay) <= 1000 * claim_seconds and recovery passes do not overlap |
| LeaseLimits.BudgetIsSafe | backend/app/services/worker_service.py:66-85 | within the budget and without overlapping passes, every state of every run has at most one live holder per task and every recovery write hits a dead worker's running row |
| LeaseLimits.BudgetKeepsResults | backend/app/repositories/task_repository.py:34-45 | under the same conditions results are final and no unsettled task is without a message |
| LeaseLimits.NoBudgetIsUnsafe | backend/app/repositories/task_repository.py:47-55 | outside the budget a run exists in which extensions fail as often as allowed and recovery hands the live worker's task to a second one |
| LeaseLimits.NoBudgetLosesResults | backend/app/repositories/task_repository.py:34-55 | and one in which recovery undoes a result just recorded by a slow worker, leaving a pending task without a message |
| LeaseLimits.MissedRun | backend/app/services/worker_service.py:210-223 | a live holder can reach any number of failed extensions up to the bound, each round as slow as allowed |
| LeaseLimits.OverlapIsUnsafe | backend/app/scheduler/cron_scheduler.py:96-101 | whatever the timing, if passes may overlap, a former leader's pass resets a task that a live worker holds and a third worker claims it |
| LeaseLimits.OverlapLosesResults | backend/app/scheduler/cron_scheduler.py:96-101 | or it returns a finished task, whose message is deleted, to pending: a terminal state is left and the task is lost |
| LeaseLimits.ApartIsExact | backend/app/scheduler/cron_scheduler.py:96-101 | in any state reached within the budget, the passes under way write only dead workers' running rows in every continuation if and only if no two of them have the same row left to write |
| LeaseTheorems.RunsKeepInvariants | backend/app/services/worker_service.py:122-156 | every state reached within the budget, while no two passes share a row left to write, satisfies both invariants: live claims are locked past their handler's deadline and remaining failures, every pass has only dead workers' rows left, each task has its message |
| LeaseTheorems.OnePassIsFenced | backend/app/cli.py:112-123 | passes that do not overlap never share a row |
| LeaseSafety.StepKeeps | backend/app/services/worker_service.py:122-156 | each of the 21 kinds of step keeps the claim invariant, a recovery write if no other pass has its row left |
| LeaseSafety.LookupFits | backend/app/services/worker_service.py:105-112 | what a lookup leaves of the lease covers all heartbeat rounds up to one that must extend, or a write |
| LeaseSafety.BeatKeeps | backend/app/services/worker_service.py:206-231 | a heartbeat, guarded by worker id only, keeps every claim justified whichever of its two extensions fail |
| LeaseSafety.MissFits | backend/app/services/worker_service.py:222-223 | a failed extension, logged and survived, uses up exactly one round of the lease's reserve |
| LeaseSafety.ReportKeeps | backend/app/services/worker_service.py:235-250 | the unconditional result write, with or without a retry, keeps every other claim justified |
| LeaseSafety.RecoverReadKeeps | backend/app/repositories/task_repository.py:81-87 | a lock found expired has no live holder |
| LeaseSafety.RecoverWriteKeeps | backend/app/scheduler/cron_scheduler.py:96-101 | the later, unconditional recovery write still hits only a row without a live holder, if no other pass is about to write it |
| LeaseTheorems.RunIsLawful | docs/diagrams/task-states.puml:13-23 | in every run within the budget whose passes are apart, each status change is an arrow of the diagram, new rows are pending, results and heartbeats hit running rows only, and recovery resets only running rows nobody holds |
| LeaseTheorems.ResultsAreFinal | backend/app/repositories/task_repository.py:34-45 | in such a run, once a task is terminal its row never changes again, except for the processed flag |
| LeaseTheorems.NoLostTask | backend/app/services/worker_service.py:128-156 | in such a run each pending or running task has exactly one undeleted message |
| LeaseTheorems.DeletedOnlyWhenSettled | backend/app/cli.py:197-211 | in such a run a message disappears only by deletion and only when its task is terminal or gone |
| LeaseMail.StepKeepsMail | backend/app/services/worker_service.py:128-139 | each step keeps: one message per task ever created, none missing or about to go unless its task is settled |
| LeaseTheorems.SentOnceWhereRowSays | infra/observability/postgres-exporter/queries.yaml:138-142 | in every run, whatever the timing and however passes overlap, each task id was sent exactly once, to the queue its row names: retry if retry_count > 0, else scheduled if so triggered, else normal |
| LeaseRecovery.CrashRecoveryBound | backend/app/scheduler/cron_scheduler.py:89-101 | after a crash at x, with a pass completed at least every S, by x + 2 * claim_seconds + S the task is gone, settled, held again, or pending with a visible message; if time jumps, it is pending while the clock passes its message's visibility time, itself within the bound |
| LeaseRecovery.WaitingOrBack | backend/app/queue/sqs.py:57-62 | until it is back in that sense, the task stays an orphan that no pass has missed, or pending with a message that becomes visible within the bound |
| LeaseRecovery.CrashOrphans | backend/app/services/worker_service.py:68-76 | a crash leaves a lock that ends between now and one lease ahead |
| RetryChains.RetryChainShape | backend/app/services/worker_service.py:235-250 | in every such run with fixed limits a chain has consecutive counts, one job and trigger, at most max_retries + 1 attempts (after a manual retry of count r: max(1, max_retries - r)), and exactly all but the last have failed |
| RetryChains.RunsKeepChains | backend/app/api/v1/tasks.py:30-41 | a manual retry opens a chain of its own; every step keeps chains dense, ordered and limited |
| Worker.WorkerService.ClaimWithRetry | backend/app/services/worker_service.py:87-103 | claims at exactly the first attempt that finds the row pending with no earlier re-read finding it taken, whatever others do in between, and sleeps at most the lookup time; a lost claim has written nothing |
| Worker.WorkerService.GetJobWithRetry | backend/app/services/worker_service.py:105-112 | finds the job if and only if some attempt sees it; a failing lookup sleeps exactly the time the budget reserves |
| Worker.WorkerService.HandleFailure | backend/app/services/worker_service.py:235-250 | failed with one new attempt of the same job and trigger, count one higher, sent once, if and only if retries are left; else final_failed and nothing new; no other row changes |
| Worker.WorkerService.Report | backend/app/services/worker_service.py:141-156 | the row becomes success if and only if the execution succeeded, failed if and only if it broke with retries left, final_failed otherwise or if the job is missing; exactly a failed row brings a new attempt; no other row changes |
| LeaseResults.ResultsAreEarned | backend/app/services/worker_service.py:141-156 | in every run, whatever the timing, a settled row was settled by a report of a handler whose work on it had ended: success exactly of an execution that succeeded, failed exactly of one that broke with retries left, final_failed exactly of one without or of a missing job |
| LeaseResults.OutcomesAreObserved | backend/app/services/worker_service.py:146-155 | a handler that is about to report carries the outcome its execution or lookup ended with, unchanged since |
| Worker.WorkerService.DropsMessage | backend/app/services/worker_service.py:130-139 | after a lost claim the message can go if and only if the task is gone, success, failed or final_failed |
| Worker.TasksApi.RetryTask | backend/app/api/v1/tasks.py:23-41 | 404 exactly for a missing task, 409 exactly for one that has not failed; otherwise one new pending attempt with the same job and trigger and a count one higher, sent once; no row changes |
| Worker.StepsAreTheWorkers | backend/app/services/worker_service.py:66-231 | the protocol's claim, re-read and heartbeat steps, field by field: who may claim, what the row becomes, when claiming goes on |
| Worker.ReportStepIsTheWorkers | backend/app/services/worker_service.py:141-156 | its report step settles the row as the worker's report does and sends exactly a new attempt |
| Worker.NewStepsAreTheApi | backend/app/api/v1/tasks.py:33-41 | its manual retry copies job, trigger and count of the failed task; its creation starts at count zero; each is sent to its queue |
| Worker.MessageStepsAreTheQueues | backend/app/cli.py:197-211 | receipt and heartbeat hide a message for one lease; a lost claim lets it go if and only if the task is gone or settled |
| Worker.StepsAreOffered | backend/app/services/worker_service.py:66-85 | the exact conditions under which messages arrive, claims win, work ends, workers crash and recovery reads and writes |
| Worker.StepsAreThePass | backend/app/scheduler/cron_scheduler.py:96-101 | its recovery read finds the expired rows, each write releases one row of the table it finds, a vanished row ends the pass |
| TaskRepository.TaskTable.Claim | backend/app/services/worker_service.py:66-85 | wins if and only if the row exists and is pending, and writes nothing otherwise |
| TaskRepository.TaskTable.Extend | backend/app/services/worker_service.py:213-221 | moves the lock of exactly the row that this worker has locked, whatever its status |
| TaskRepository.FinishSettles | backend/app/repositories/task_repository.py:34-45 | a result takes an arrow of the diagram, fixes the completion time, keeps the routing readable, and leaves a row that no claim, heartbeat or recovery read will touch |
| TaskRepository.ReleaseUndoesClaim | backend/app/repositories/task_repository.py:47-55 | recovery after a claim, with or without heartbeats, gives back the very row that was claimed |
| TaskRepository.TaskTable.RecoverOrphans | backend/app/scheduler/cron_scheduler.py:89-101 | whatever others write in between: releases each row found expired at the read, on the table it then finds, until one has vanished; returns how many |
| TaskRepository.UndisturbedRecovery | backend/app/scheduler/cron_scheduler.py:96-101 | with nobody writing in between, the pass releases exactly the expired rows |
| TaskRepository.RecoveredShape | backend/app/repositories/task_repository.py:81-87 | recovery leaves no expired row, moves only running rows to pending, and is idempotent |
| Cron.CronScheduler.SyncJobs | backend/app/scheduler/cron_scheduler.py:54-78 | the fields after the loop: evict disabled jobs, push new firings only, rewind the cursor by the overlap |
| Cron.CronScheduler.Dispatch | backend/app/scheduler/cron_scheduler.py:139-160 | commits the advanced schedule; creates and sends one pending scheduled task if and only if the policy is not forbid or no task of the job is running |
| Cron.CronScheduler.DispatchDueJobs | backend/app/scheduler/cron_scheduler.py:103-137 | from any heap with stale and duplicate entries: fires exactly the cached jobs due, each once and in firing order, moves exactly those past now, keeps the index and reschedules exactly those rows; a due job gets a new task, one only, if and only if its policy is not forbid or none of its tasks was running; new tasks are sent once, no other row changes |
| Cron.PassServes | backend/app/scheduler/cron_scheduler.py:147-160 | what a pass enqueues is, job by job, what the concurrency policy allows |
| Cron.PopReducesDue | backend/app/scheduler/cron_scheduler.py:108-112 | every iteration of the pass removes one of the entries at or before now |
| Cron.PushIsLate | backend/app/scheduler/cron_scheduler.py:128-131 | a re-push adds no due entry, so the pass ends |
| Cron.FireKeeps | backend/app/scheduler/cron_scheduler.py:114-131 | firing a current least entry extends the pass by it and keeps every cached next firing in the heap |
| Cron.FireAllEnqueues | backend/app/scheduler/cron_scheduler.py:147-160 | a sequence of firings creates exactly one pending scheduled task per allowed firing and sends each once, in order |
| Cron.FireAllReschedules | backend/app/scheduler/cron_scheduler.py:122-131 | exactly the fired jobs' rows are rewritten, from their cached copies |
| CronReplicas.SyncRowMeans | backend/app/scheduler/cron_scheduler.py:64-87 | one row of a sync: a disabled job leaves the cache, any other is cached as read and pushed unless cached with a firing at most 1 ms away |
| CronReplicas.SyncKeepsIndex | backend/app/scheduler/cron_scheduler.py:64-87 | a sync keeps every cached next firing in the heap, given whole-second firings |
| CronReplicas.SyncIsFull | backend/app/repositories/job_repository.py:82-92 | an incremental sync leaves exactly the cache a full rescan builds |
| CronReplicas.RepeatedSyncIsIdle | backend/app/scheduler/cron_scheduler.py:19-26 | repeating a sync without a change pushes and changes nothing |
| CronReplicas.OverlapIsExact | backend/app/scheduler/cron_scheduler.py:19-26 | after a full sync, the next sync learns a change if and only if its stamp is not before the rewound cursor |
| CronReplicas.EveryCycleIsFullScan | backend/app/cli.py:112-123 | in every run, however old the leader's heap, each cycle's cache is that of a full rescan and it fires exactly the enabled due jobs of the table |
| CronReplicas.AtMostOnce | backend/app/scheduler/cron_scheduler.py:54-160 | over every run with any replicas, leaders and API writes that are in time, the firings dispatched for each job strictly increase |
| CronReplicas.OnceExactlyWithoutLag | backend/app/services/job_service.py:131-134 | for every cron rule, no firing is dispatched twice or out of order, in all runs whose cron changes lag at most so much, if and only if that lag is zero |
| CronReplicas.LateWriteRepeats | backend/app/services/job_service.py:131-134 | for every cron rule and expression, a run in which a cron change that read the clock one millisecond before a firing has that firing dispatched twice |
| CronReplicas.CurrentIsForward | backend/app/services/job_service.py:131-134 | a write that leaves the schedule alone, or read a clock not before the job's last dispatched firing, never brings back a dispatched firing |
| CronReplicas.CurrentIsExact | backend/app/services/job_service.py:131-134 | if the written expression fires at the last dispatched time, the write stays ahead if and only if its clock was not before that time |
| CronReplicas.ForwardIsExact | backend/app/services/job_service.py:131-134 | a write that became visible late makes the next cycle repeat or reverse a firing if and only if its next firing is not after all dispatched ones |
| CronReplicas.LeaderCycle | backend/app/cli.py:112-123 | the scheduler object's sync and dispatch together take a cycle step of the replicated system, and serve exactly the enabled due jobs of the table that may run |
| Chaining.GenerationGuard | backend/app/scheduler/dependency_scheduler.py:83-123 | over every run, with retries, manual runs and graph edits, the ready times at which a job is triggered strictly increase |
| Chaining.FiringIsNewer | backend/app/scheduler/dependency_scheduler.py:102-107 | the guard: a firing's ready time exceeds every recorded one of its job |
| Chaining.PassTriggersExactly | backend/app/scheduler/dependency_scheduler.py:36-107 | a pass triggers a job, once, if and only if it is enabled, directly downstream of a task of the batch, and due: all upstreams' newest tasks succeeded and one completed after its own newest; the ready time is the newest of them |
| Chaining.TriggersAreDue | backend/app/scheduler/dependency_scheduler.py:39-68 | in every run each recorded trigger came from a pass at which its job was enabled and due |
| Chaining.BatchIsOldest | backend/app/repositories/task_repository.py:89-97 | at most 100 unprocessed successes, and one is left out only for 100 that are no younger |
| Chaining.RunsKeepRows | backend/app/repositories/task_repository.py:99-121 | completion times lie between creation and now, only successes are processed, each trigger left a task created no earlier than its ready time |
| Propagation.BoundedPropagation | backend/app/scheduler/dependency_scheduler.py:26-68 | on a fixed acyclic graph a job's dependency triggers never exceed its upstreams' processed successes, and its originating runs stay within a bound computed from external runs by topological rank |
| Propagation.PassPays | backend/app/repositories/task_repository.py:57-60 | a pass that triggers a job marks at least one more success of its direct upstreams |
| Propagation.OneSuccessPerOrigin | backend/app/services/worker_service.py:235-250 | retries of one originating run yield at most one success |
| FanIn.FanInExactlyOnce | backend/app/scheduler/dependency_scheduler.py:86-115 | a round of all upstreams that succeeds and is processed, in any interleaving and any split into batches, triggers the downstream job exactly once, at the round's ready time, and leaves exactly one task |
| FanIn.ReadyAtIsRound | backend/app/scheduler/dependency_scheduler.py:83-107 | a pass within the round finds all upstreams succeeded exactly when the round has, at the round's final ready time |
| FanIn.NotReadyAgain | backend/app/scheduler/dependency_scheduler.py:102-107 | once fired for the round the job is not ready again |
| DependencyScheduling.DependencyScheduler.TriggerDependentJobs | backend/app/scheduler/dependency_scheduler.py:26-68 | the program's pass takes a pass step: marks exactly the batch, creates one pending dependency task for exactly the enabled jobs that are directly downstream of the batch and due, sends each once |
| DependencyScheduling.DependencyScheduler.DispatchIfReady | backend/app/scheduler/dependency_scheduler.py:83-123 | fires if and only if all upstreams' newest tasks succeeded, there is one, and the job has not completed since the newest of them |
| DependencyScheduling.DependencyScheduler.Readiness | backend/app/scheduler/dependency_scheduler.py:86-104 | the loop decides readiness and returns the newest upstream completion |
| DependencyScheduling.DependencyScheduler.CollectCandidates | backend/app/scheduler/dependency_scheduler.py:36-43 | exactly the enabled jobs with an edge from the job of a task of the batch |
| DependencyScheduling.DependencyScheduler.MarkProcessed | backend/app/scheduler/dependency_scheduler.py:45-46 | marks exactly the batch |
| LeaseChaining.LeaseStepIsTaskStep | backend/app/services/worker_service.py:122-156 | under the claim invariant every lease step other than job removal and the processed mark, seen through the task table, is a task step of the chaining model |
| LeaseChaining.GuardHoldsOfWorkers | backend/app/scheduler/dependency_scheduler.py:102-107 | however workers, crashes, recoveries, retries and job removals interleave with dependency passes, the ready times at which a remaining job was triggered strictly increase |
| Graph.GetAllDescendants | backend/app/repositories/job_repository.py:94-110 | ends on every finite graph, cyclic ones included, and returns exactly the jobs reachable by one or more edges |
| Graph.LocalCheckIsGlobal | backend/app/services/job_service.py:206-211 | after an edit at one job of an acyclic graph, the whole graph is acyclic if and only if that job is not its own descendant |
| Graph.CycleThroughEdit | backend/app/services/job_service.py:145-155 | any cycle after the edit passes through the edited job |
| JobService.JobTable.CreatesCycle | backend/app/services/job_service.py:206-211 | true if and only if the job reaches itself |
| JobService.JobTable.CreateJob | backend/app/services/job_service.py:95-120 | accepts exactly valid schedules and actions whose resulting whole graph is acyclic; then the job's upstreams and downstreams are the named jobs that exist, all other edges stay, and a run starts at once exactly for an enabled job without cron and upstreams; otherwise changes nothing; a name on both sides is rejected, the new id itself is ignored |
| JobService.JobTable.UpdateJob | backend/app/services/job_service.py:122-160 | the same field by field and edge by edge: what was sent is taken over, what was not stays; a job named on both sides, itself as a downstream, or itself as an upstream alone, is rejected, itself as an upstream beside sent downstreams is ignored; a run starts only on the change to enabled |
| JobService.AcceptedEdit | backend/app/services/job_service.py:145-155 | edge by edge what an accepted edit makes of the graph, and which names alone get it rejected |
| JobService.JobTable.DeleteJob | backend/app/services/job_service.py:162-163 | removes the job with its edges and keeps the graph acyclic |
| JobService.JobTable.AdvanceSchedule | backend/app/scheduler/cron_scheduler.py:118-145 | a committed scheduled job always has a next firing to compare and advance |
| JobService.ResolveSchedule | backend/app/services/job_service.py:73-84 | blank text gives a one-time job; otherwise the text without surrounding spaces, which must be valid, gives a scheduled job with that cron and its next firing |
| JobService.JobTable.UpdateStaysDerived | backend/app/services/job_service.py:127-143 | whichever of action and configuration is sent, the committed spec is the compilation of the action the row ends up with, and a changed shell action was allowed |
| JobService.RewiredAt | backend/app/services/job_service.py:145-151 | replacing a job's upstreams and downstreams touches edges at that job only |
| Leadership.LeaderLock.IsLeader | backend/app/cli.py:63-83 | a failed call answers False, drops the connection and keeps its session at most in the pool; one that works keeps its connection and leads exactly if it did already or the lock is free or its own |
| Leadership.ServerIsAsMeant | backend/app/cli.py:65-79 | what a call does to sessions, lock and count on the server |
| Leadership.FailedCallComesBack | backend/app/cli.py:80-92 | in every run, after a failed call, the process's next working call while nobody holds the lock answers True exactly if it connects, or, if the session went back to the pool, exactly if that session is still alive |
| Leadership.LeaderLock.Reset | backend/app/cli.py:85-92 | stands down and lets the connection go |
| Leadership.TrueMeansHeld | backend/app/cli.py:69-79 | the answer is True if and only if the statement works and the lock is free or already this session's |
| Leadership.LeadsOnlyWithLock | backend/app/cli.py:63-83 | in every run True means that the caller's session is alive and holds the lock |
| Leadership.OneLiveLeader | backend/app/cli.py:46-56 | in no state of any run do two processes lead on live sessions |
| Leadership.HandoverNeedsLoss | backend/app/cli.py:46-56 | between True for one process and True for another, the first one's session was lost |
| Leadership.OldLeaderActsOn | backend/app/cli.py:112-123 | a run in which a process that lost its session is still in the cycle its True answer started while another one leads |
| Leadership.CountIsOneExactly | backend/app/cli.py:49-52 | the lock count never exceeds 1 in exactly the runs where no effective lock attempt follows, as its process's next action, a failure on a living, lock-holding session that was returned to the pool and has stayed alive |
| Leadership.ExposedExactly | backend/app/cli.py:80-92 | a process is about to lock a session that already holds the lock exactly when its last action was such a failure |
| Leadership.CountIsOneIfFailureIsLoss | backend/app/cli.py:80-83 | if a failing statement always means a lost session, no session's lock count exceeds 1 |
| Leadership.CountCanStack | backend/app/cli.py:80-92 | otherwise the count can reach any height: a failed check returns the session to the pool and the next call locks it again |

## Left out

- Job deletion and conversion of a scheduled job to a one-time job in the cron model: the incremental read returns neither, so cached copies are not evicted, and nothing is claimed about them.
- API writes between the sync and the dispatch of one leader cycle, which the write-back of the cached copy would undo.
- Exceptions part-way through a dispatch or dependency pass.
- A row deleted between a successful claim and the read that follows it: the program retries and then drops the message, the model treats the handler as one whose result write fails.
- LeaseChaining.LeaseStepIsTaskStep: excludes job removal and the processed mark, which LeaseChaining.GuardHoldsOfWorkers takes in, the mark as part of a pass.
- Overlapping dispatch or dependency passes of two leaders: cron cycles and dependency passes are single steps.
- "forbid never has two running tasks" and "every upstream completion triggers a run": not invariants of the code.
- The per-queue concurrency ceiling: the in-flight count is raised inside the handler, so the documented limit does not hold in every interleaving.
- The contents of a compiled action (`_build_runtime_spec`), explicit nulls for fields other than the cron expression in an update, and job fields that take no part in scheduling.
- Container execution on Docker and Kubernetes, output capture and truncation: execution is an arbitrary success or failure after arbitrary time.
- SQS, SQLAlchemy, croniter and heapq internals, JSON message bodies, float timestamps.
- Read and write routing, connection pools, replica probing and replication lag.
- Autoscaler and VM service, frontend, metrics, migrations, load generators, list and pagination queries: only easy members.
