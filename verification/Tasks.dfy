/** Task rows and the single-row writes of the task repository and the worker.

    Times are integer milliseconds on one shared clock. */
module Tasks {
  type TaskId = nat
  type JobId = nat
  type WorkerId = nat

  datatype Option<+T> = None | Some(value: T)

  datatype Status = Pending | Running | Success | Failed | FinalFailed

  datatype Trigger = Manual | Scheduled | Dependency

  datatype Queue = NormalQueue | ScheduledQueue | RetryQueue

  /** The attempt that opened a retry chain: its id and its retry count. */
  datatype Origin = Origin(task: TaskId, count: nat)

  /** One row of the tasks table. The program does not store `origin`; the model keeps it
      as history. */
  datatype Row = Row(
    job: JobId,
    status: Status,
    trigger: Trigger,
    retryCount: nat,
    lockedBy: Option<WorkerId>,
    lockedUntil: Option<int>,
    startedAt: Option<int>,
    createdAt: int,
    finishedAt: Option<int>,
    processed: bool,
    origin: Origin
  )

  predicate Terminal(status: Status) {
    status in {Success, Failed, FinalFailed}
  }

  /** The arrows of the documented status diagram. */
  predicate Arrow(before: Status, after: Status) {
    || (before == Pending && after == Running)
    || (before == Running && (Terminal(after) || after == Pending))
  }

  /** The queue a row's message was sent to, recovered from the row alone. */
  function Route(row: Row): Queue {
    if row.retryCount > 0 then RetryQueue
    else if row.trigger == Scheduled then ScheduledQueue
    else NormalQueue
  }

  function NewRow(job: JobId, trigger: Trigger, retryCount: nat, createdAt: int, origin: Origin): Row {
    Row(job, Pending, trigger, retryCount, None, None, None, createdAt, None, false, origin)
  }

  function Claimed(row: Row, worker: WorkerId, stamp: int, lease: int): Row {
    row.(status := Running, lockedBy := Some(worker), lockedUntil := Some(stamp + lease), startedAt := Some(stamp))
  }

  /** The heartbeat's update: guarded by the worker id, not by the status. */
  function Extended(row: Row, worker: WorkerId, until: int): Row {
    if row.lockedBy == Some(worker) then row.(lockedUntil := Some(until)) else row
  }

  /** The result write: unconditional. */
  function Finished(row: Row, status: Status, at: int): Row {
    row.(status := status, lockedBy := None, lockedUntil := None, finishedAt := Some(at))
  }

  /** The recovery write: unconditional. */
  function Released(row: Row): Row {
    row.(status := Pending, lockedBy := None, lockedUntil := None, startedAt := None)
  }

  function Chained(row: Row): Row {
    row.(processed := true)
  }

  predicate Expired(row: Row, now: int) {
    row.status == Running && row.lockedUntil.Some? && row.lockedUntil.value < now
  }

  /** When a run counts as complete: its finish, or its creation while unfinished. */
  function CompletedAt(row: Row): int {
    if row.finishedAt.Some? then row.finishedAt.value else row.createdAt
  }
}
