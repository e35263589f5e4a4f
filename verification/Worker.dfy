/** The worker's own loops and writes, with what other processes do to the table in between
    as an input. */
module Worker {
  import opened Tasks
  import opened Lease
  import opened TaskRepository

  type Table = map<TaskId, Row>

  ghost predicate IsPending(rows: Table, task: TaskId) {
    task in rows && rows[task].status == Pending
  }

  /** The row exists in a status that no claim can match. */
  ghost predicate IsTaken(rows: Table, task: TaskId) {
    task in rows && rows[task].status != Pending
  }

  /** Attempt k is the first to find the row pending, and no re-read before it found the row
      taken. Attempt j updates `seen[2 * j]` and re-reads `seen[2 * j + 1]`. */
  ghost predicate WinsAt(seen: seq<Table>, task: TaskId, k: nat)
    requires |seen| == 2 * LOOKUP_ATTEMPTS
  {
    && k < LOOKUP_ATTEMPTS && IsPending(seen[2 * k], task)
    && forall j | 0 <= j < k :: !IsPending(seen[2 * j], task) && !IsTaken(seen[2 * j + 1], task)
  }

  /** No attempt up to k wins, and its re-read finds the row taken or is the last. */
  ghost predicate GivesUpAt(seen: seq<Table>, task: TaskId, k: nat)
    requires |seen| == 2 * LOOKUP_ATTEMPTS
  {
    && k < LOOKUP_ATTEMPTS
    && (forall j | 0 <= j <= k :: !IsPending(seen[2 * j], task))
    && (forall j | 0 <= j < k :: !IsTaken(seen[2 * j + 1], task))
    && (IsTaken(seen[2 * k + 1], task) || k == LOOKUP_ATTEMPTS - 1)
  }

  /** What a report makes of the row of its task. */
  ghost predicate Settles(row: Row, row': Row, outcome: Outcome, maxRetries: nat, now: int) {
    && row' == row.(status := row'.status, lockedBy := None, lockedUntil := None, finishedAt := Some(now))
    && (row'.status == Success <==> outcome == Succeeded)
    && (row'.status == Failed <==> outcome == Broke && row.retryCount < maxRetries)
    && (row'.status == FinalFailed <==> outcome == NoJob || (outcome == Broke && row.retryCount >= maxRetries))
  }

  /** `attempt` is pending, untouched, and the next one of its job after `row`. */
  ghost predicate NextAttempt(row: Row, attempt: Row, now: int) {
    && attempt.job == row.job && attempt.trigger == row.trigger && attempt.retryCount == row.retryCount + 1
    && attempt.status == Pending && attempt.createdAt == now && attempt.finishedAt == None && !attempt.processed
    && attempt.lockedBy == None && attempt.lockedUntil == None && attempt.startedAt == None
  }

  class WorkerService {
    const table: TaskTable
    const worker: WorkerId
    const lease: nat
    var retryQueue: seq<TaskId>

    constructor (table: TaskTable, worker: WorkerId, lease: nat)
      ensures this.table == table && this.worker == worker && this.lease == lease && retryQueue == []
    {
      this.table, this.worker, this.lease, retryQueue := table, worker, lease, [];
    }

    /** Wins at the first attempt that finds the row pending; a lost claim leaves the table as
        others made it. */
    method ClaimWithRetry(task: TaskId, seen: seq<Table>, stamps: seq<int>) returns (won: Option<nat>, slept: nat)
      requires |seen| == 2 * LOOKUP_ATTEMPTS && |stamps| == LOOKUP_ATTEMPTS
      modifies table
      ensures won.Some? ==> WinsAt(seen, task, won.value)
      ensures won.None? ==> forall k: nat :: !WinsAt(seen, task, k)
      ensures won.Some? ==> table.rows == seen[2 * won.value][task := Claimed(seen[2 * won.value][task], worker, stamps[won.value], lease)]
      ensures won.None? ==> exists k: nat :: GivesUpAt(seen, task, k) && table.rows == seen[2 * k + 1]
      ensures won.Some? ==> slept == won.value * LOOKUP_BACKOFF
      ensures slept <= LookupTime()
    {
      slept := 0;
      for attempt := 0 to LOOKUP_ATTEMPTS
        invariant forall j | 0 <= j < attempt :: !IsPending(seen[2 * j], task) && !IsTaken(seen[2 * j + 1], task)
        invariant slept == (if attempt < LOOKUP_ATTEMPTS then attempt else LOOKUP_ATTEMPTS - 1) * LOOKUP_BACKOFF
        invariant attempt > 0 ==> table.rows == seen[2 * attempt - 1]
      {
        table.rows := seen[2 * attempt];
        var claimed := table.Claim(task, worker, stamps[attempt], lease);
        if claimed {
          return Some(attempt), slept;
        }
        table.rows := seen[2 * attempt + 1];
        if task in table.rows && table.rows[task].status != Pending {
          assert GivesUpAt(seen, task, attempt);
          return None, slept;
        }
        if attempt < LOOKUP_ATTEMPTS - 1 {
          slept := slept + LOOKUP_BACKOFF;
        }
      }
      won := None;
      assert GivesUpAt(seen, task, LOOKUP_ATTEMPTS - 1);
    }

    /** Look for the job; `found` says whether each attempt would see it. A lookup that fails
        sleeps for exactly the time that the lease budget reserves. */
    method GetJobWithRetry(found: seq<bool>) returns (ok: bool, slept: nat)
      requires |found| == LOOKUP_ATTEMPTS
      ensures ok <==> true in found
      ensures slept <= LookupTime() && (!ok ==> slept == LookupTime())
      ensures ok ==> slept % LOOKUP_BACKOFF == 0 && found[slept / LOOKUP_BACKOFF] && true !in found[..slept / LOOKUP_BACKOFF]
    {
      slept := 0;
      for attempt := 0 to LOOKUP_ATTEMPTS
        invariant true !in found[..attempt]
        invariant slept == (if attempt < LOOKUP_ATTEMPTS then attempt else LOOKUP_ATTEMPTS - 1) * LOOKUP_BACKOFF
      {
        if found[attempt] {
          return true, slept;
        }
        assert found[..attempt + 1] == found[..attempt] + [found[attempt]];
        if attempt < LOOKUP_ATTEMPTS - 1 {
          slept := slept + LOOKUP_BACKOFF;
        }
      }
      assert found[..LOOKUP_ATTEMPTS] == found;
      ok := false;
    }

    /** Record a failure, and enqueue the next attempt while retries are left. */
    method HandleFailure(task: TaskId, maxRetries: nat, id: TaskId, now: int)
      requires task in table.rows && id !in table.rows
      modifies this, table
      ensures task in table.rows && Settles(old(table.rows)[task], table.rows[task], Broke, maxRetries, now)
      ensures table.rows[task].status != Failed ==> table.rows.Keys == old(table.rows).Keys && retryQueue == old(retryQueue)
      ensures table.rows[task].status == Failed ==>
        table.rows.Keys == old(table.rows).Keys + {id} && NextAttempt(old(table.rows)[task], table.rows[id], now)
        && table.rows[id].origin == old(table.rows)[task].origin && retryQueue == old(retryQueue) + [id]
      ensures forall t | t in old(table.rows) && t != task :: table.rows[t] == old(table.rows)[t]
    {
      var row := table.rows[task];
      if row.retryCount >= maxRetries {
        table.Finish(task, FinalFailed, now);
        return;
      }
      table.Finish(task, Failed, now);
      table.rows := table.rows[id := NewRow(row.job, row.trigger, row.retryCount + 1, now, row.origin)];
      retryQueue := retryQueue + [id];
    }

    /** Write the result of a claimed task: a success, a missing job, or a failure. */
    method Report(task: TaskId, outcome: Outcome, maxRetries: nat, id: TaskId, now: int)
      requires task in table.rows && id !in table.rows
      modifies this, table
      ensures task in table.rows && Settles(old(table.rows)[task], table.rows[task], outcome, maxRetries, now)
      ensures table.rows[task].status != Failed ==> table.rows.Keys == old(table.rows).Keys && retryQueue == old(retryQueue)
      ensures table.rows[task].status == Failed ==>
        table.rows.Keys == old(table.rows).Keys + {id} && NextAttempt(old(table.rows)[task], table.rows[id], now)
        && table.rows[id].origin == old(table.rows)[task].origin && retryQueue == old(retryQueue) + [id]
      ensures forall t | t in old(table.rows) && t != task :: table.rows[t] == old(table.rows)[t]
    {
      match outcome
      case NoJob => table.Finish(task, FinalFailed, now);
      case Succeeded => table.Finish(task, Success, now);
      case Broke => HandleFailure(task, maxRetries, id, now);
    }

    /** After a lost claim: whether the message can go. */
    method DropsMessage(task: TaskId) returns (drop: bool)
      ensures drop <==> task !in table.rows || table.rows[task].status == Success || table.rows[task].status == Failed || table.rows[task].status == FinalFailed
    {
      drop := task !in table.rows || Terminal(table.rows[task].status);
    }
  }

  /** The API's answer to a manual retry. */
  datatype RetryAnswer = TaskNotFound | OnlyFailed | Queued(id: TaskId)

  class TasksApi {
    const table: TaskTable
    var retryQueue: seq<TaskId>

    constructor (table: TaskTable)
      ensures this.table == table && retryQueue == []
    {
      this.table, retryQueue := table, [];
    }

    /** Adds the next attempt of a failed task as a row of its own; nothing else changes. */
    method RetryTask(task: TaskId, id: TaskId, now: int) returns (r: RetryAnswer)
      requires id !in table.rows
      modifies this, table
      ensures task !in old(table.rows) <==> r == TaskNotFound
      ensures r == OnlyFailed <==> task in old(table.rows) && old(table.rows)[task].status !in {Failed, FinalFailed}
      ensures r == Queued(id) <==> task in old(table.rows) && old(table.rows)[task].status in {Failed, FinalFailed}
      ensures r == Queued(id) ==>
        && table.rows.Keys == old(table.rows).Keys + {id} && NextAttempt(old(table.rows)[task], table.rows[id], now)
        && table.rows[id].origin == Origin(id, table.rows[id].retryCount)
        && (forall t | t in old(table.rows) :: table.rows[t] == old(table.rows)[t])
        && retryQueue == old(retryQueue) + [id]
      ensures r != Queued(id) ==> table.rows == old(table.rows) && retryQueue == old(retryQueue)
    {
      if task !in table.rows {
        return TaskNotFound;
      }
      var row := table.rows[task];
      if row.status !in {Failed, FinalFailed} {
        return OnlyFailed;
      }
      table.rows := table.rows[id := NewRow(row.job, row.trigger, row.retryCount + 1, now, Origin(id, row.retryCount + 1))];
      retryQueue := retryQueue + [id];
      r := Queued(id);
    }
  }

  /** The protocol's claim, heartbeat and report steps are what these methods do to the table
      and the retry queue, and its retry phases move as the loop does. */
  lemma StepsAreTheWorkers(p: Params, s: State, step: Step)
    requires Enabled(p, s, step)
    ensures step.Claim? || step.Miss? ==> (step.Claim? <==> s.handlers[step.h].task in s.tasks && s.tasks[s.handlers[step.h].task].status == Pending)
    ensures step.Claim? ==>
      var hd := s.handlers[step.h];
      Next(p, s, step).tasks == s.tasks[hd.task := s.tasks[hd.task].(status := Running, lockedBy := Some(hd.worker), lockedUntil := Some(step.stamp + 1000 * p.claimSeconds), startedAt := Some(step.stamp))]
    ensures step.Reread? ==>
      var hd := s.handlers[step.h];
      Next(p, s, step).handlers[step.h].phase.Claiming? <==> hd.phase.attempt + 1 < 5 && (hd.task in s.tasks ==> s.tasks[hd.task].status == Pending)
    ensures step.Beat? ==>
      var hd := s.handlers[step.h];
      Next(p, s, step).tasks ==
        if step.locks && hd.task in s.tasks && s.tasks[hd.task].lockedBy == Some(hd.worker)
        then s.tasks[hd.task := s.tasks[hd.task].(lockedUntil := Some(step.stamp + 1000 * p.claimSeconds))] else s.tasks
  {
  }

  /** The protocol's report settles the row by the handler's outcome, touches no other row, and
      exactly a failure with retries left brings one new attempt, sent to the retry queue. */
  lemma ReportStepIsTheWorkers(p: Params, s: State, step: Step)
    requires Enabled(p, s, step) && step.Report? && s.handlers[step.h].task in s.tasks && s.tasks.Keys <= s.home.Keys
    ensures
      var s', hd := Next(p, s, step), s.handlers[step.h];
      && hd.task in s'.tasks && Settles(s.tasks[hd.task], s'.tasks[hd.task], hd.phase.outcome, step.maxRetries, s.now)
      && (forall t | t in s.tasks && t != hd.task :: t in s'.tasks && s'.tasks[t] == s.tasks[t])
      && (s'.tasks[hd.task].status != Failed ==> s'.tasks.Keys == s.tasks.Keys && s'.sent == s.sent)
      && (s'.tasks[hd.task].status == Failed ==>
            && s'.tasks.Keys == s.tasks.Keys + {step.id} && NextAttempt(s.tasks[hd.task], s'.tasks[step.id], s.now)
            && s'.sent == s.sent[step.msg := Send(step.id, RetryQueue)])
  {
    assert step.id !in s.home;
  }

  /** A manual retry copies job, trigger and count of the failed task; a creation starts at zero. */
  lemma NewStepsAreTheApi(p: Params, s: State, step: Step)
    requires Enabled(p, s, step) && (step.ManualRetry? || step.Create?) && s.tasks.Keys <= s.home.Keys
    ensures
      var s' := Next(p, s, step);
      && s'.tasks.Keys == s.tasks.Keys + {step.id} && (forall t | t in s.tasks :: s'.tasks[t] == s.tasks[t])
      && (step.ManualRetry? ==>
            && s.tasks[step.failed].status in {Failed, FinalFailed} && NextAttempt(s.tasks[step.failed], s'.tasks[step.id], s.now)
            && s'.sent == s.sent[step.msg := Send(step.id, RetryQueue)])
      && (step.Create? ==>
            && s'.tasks[step.id] == Row(step.job, Pending, step.trigger, 0, None, None, None, s.now, None, false, Origin(step.id, 0))
            && s'.sent == s.sent[step.msg := Send(step.id, if step.trigger == Scheduled then ScheduledQueue else NormalQueue)])
  {
  }

  /** When the environment may act: nothing but these conditions holds a step back. */
  lemma StepsAreOffered(p: Params, s: State, h: HandlerId, k: nat, m: MsgId, stamp: int)
    ensures Enabled(p, s, Receive(h, k, m)) <==> h !in s.handlers && m in s.messages && s.messages[m].visibleAt <= s.now
    ensures Enabled(p, s, ManualRetry(k, h, m)) <==>
      h !in s.home && m !in s.sent && k in s.tasks && s.tasks[k].status in {Failed, FinalFailed}
    ensures Enabled(p, s, Claim(h, stamp)) <==>
      && h in s.handlers && s.handlers[h].phase.Claiming? && stamp <= s.now <= stamp + p.delay
      && s.handlers[h].task in s.tasks && s.tasks[s.handlers[h].task].status == Pending
    ensures Enabled(p, s, Crash(h)) <==> h in s.handlers
    ensures forall ok :: Enabled(p, s, ExecEnds(h, ok)) <==> h in s.handlers && s.handlers[h].phase.Executing?
    ensures Enabled(p, s, JobFound(h)) <==> h in s.handlers && s.handlers[h].phase.Lookup?
    ensures Enabled(p, s, JobMissing(h)) <==> h in s.handlers && s.handlers[h].phase.Lookup?
    ensures forall n :: Enabled(p, s, RecoverWrite(k, n)) <==> k in s.passes && n in s.passes[k].remaining
    ensures Enabled(p, s, RecoverRead(k)) <==> k !in s.passes && (p.overlap || forall a :: a !in s.passes)
  {
  }

  /** A received message is hidden for one lease, and a heartbeat that reaches the queue hides it
      for another. A lost claim lets the message go exactly if the task is gone or settled. */
  lemma MessageStepsAreTheQueues(p: Params, s: State, step: Step)
    requires Enabled(p, s, step)
    ensures step.Receive? ==>
      && s.messages[step.msg].visibleAt <= s.now
      && Next(p, s, step).messages == s.messages[step.msg := Message(s.messages[step.msg].task, s.now + 1000 * p.claimSeconds)]
    ensures step.Beat? ==>
      var m := s.handlers[step.h].msg;
      Next(p, s, step).messages ==
        if step.shows && m in s.messages then s.messages[m := Message(s.messages[m].task, s.now + 1000 * p.claimSeconds)] else s.messages
    ensures step.Decide? ==>
      var s', t := Next(p, s, step), s.handlers[step.h].task;
      && (step.h in s'.handlers && s'.handlers[step.h].phase.Deleting? <==> t !in s.tasks || s.tasks[t].status in {Success, Failed, FinalFailed})
      && (step.h !in s'.handlers <==> t in s.tasks && s.tasks[t].status !in {Success, Failed, FinalFailed})
      && s'.messages == s.messages && s'.tasks == s.tasks
    ensures step.Delete? ==>
      Next(p, s, step).messages == s.messages - {s.handlers[step.h].msg} && Next(p, s, step).tasks == s.tasks
  {
  }

  /** Its recovery steps are those of the repository's pass: the read finds the expired rows,
      each write releases one row of the table it finds, a vanished row ends the pass. */
  lemma StepsAreThePass(p: Params, s: State, step: Step)
    requires Enabled(p, s, step)
    ensures step.RecoverRead? ==> Next(p, s, step).passes[step.pass] == Recovery(s.now, ExpiredIds(s.tasks, s.now))
    ensures step.RecoverWrite? && step.task in s.tasks ==>
      Next(p, s, step).tasks == s.tasks[step.task := Released(s.tasks[step.task])] && Releases([step.task], [s.tasks], [Next(p, s, step).tasks])
    ensures step.RecoverWrite? && step.task !in s.tasks ==> Next(p, s, step).tasks == s.tasks && step.pass !in Next(p, s, step).passes
    ensures step.RecoverDone? ==>
      && s.passes[step.pass].remaining == {} && Next(p, s, step).passes == s.passes - {step.pass}
      && Next(p, s, step).lastRead >= s.lastRead && Next(p, s, step).lastRead >= s.passes[step.pass].readAt
      && Next(p, s, step).lastRead in {s.lastRead, s.passes[step.pass].readAt}
    ensures step.MarkProcessed? ==> Next(p, s, step).tasks == s.tasks[step.task := s.tasks[step.task].(processed := true)]
    ensures step.RemoveJob? ==>
      && (forall t :: t in Next(p, s, step).tasks <==> t in s.tasks && s.tasks[t].job != step.job)
      && (forall t | t in Next(p, s, step).tasks :: Next(p, s, step).tasks[t] == s.tasks[t])
  {
    if step.RecoverRead? {
      assert Next(p, s, step).passes[step.pass].remaining == ExpiredIds(s.tasks, s.now);
    }
  }
}
