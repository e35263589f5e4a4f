/** The task lease protocol as an interleaving of steps: message receipt, claim, job
    lookup, heartbeat, result write, message deletion, crash, orphan recovery, time.

    A live handler acts on time: time may not pass the deadline of its current phase.
    Everything else may be arbitrarily late. Lock extensions may fail, and several
    recovery passes may be under way, as far as the parameters allow. */
module Lease {
  import opened Tasks

  type HandlerId = nat
  type MsgId = nat
  type PassId = nat

  const LOOKUP_ATTEMPTS := 5
  const LOOKUP_BACKOFF := 500

  /** `delay` bounds the database and queue time spent in one phase of a handler, `misses`
      the lock extensions that fail in a row. With `overlap`, a recovery pass may start while
      another one, of a former leader, is still writing. */
  datatype Params = Params(claimSeconds: nat, delay: nat, misses: nat, overlap: bool)

  function LeaseTime(p: Params): nat {
    1000 * p.claimSeconds
  }

  /** max(1, int(claim_seconds * 0.6)) seconds. */
  function Interval(p: Params): nat {
    var whole := p.claimSeconds * 3 / 5;
    1000 * if whole < 1 then 1 else whole
  }

  /** The longest sleep of a job lookup: a backoff after every attempt but the last. */
  function LookupTime(): nat {
    (LOOKUP_ATTEMPTS - 1) * LOOKUP_BACKOFF
  }

  /** The longest time of `n` heartbeat rounds: a sleep and an extension attempt each. */
  function Rounds(p: Params, n: nat): nat {
    if n == 0 then 0 else Interval(p) + p.delay + Rounds(p, n - 1)
  }

  /** A lookup and all heartbeat rounds up to one that must extend fit into one lease. */
  predicate Budget(p: Params) {
    LookupTime() + p.delay + Rounds(p, p.misses + 1) <= LeaseTime(p)
  }

  datatype Outcome = Succeeded | Broke | NoJob

  datatype Phase =
    | Claiming(attempt: nat)                 // about to run the conditional update
    | Rereading(attempt: nat)                // the update matched no row
    | Lost                                   // gave up claiming, about to read the row
    | Lookup(stamp: int)                     // claimed, looking for the job
    | Executing(asleep: int, missed: nat)    // heartbeat asleep since then, after failed extensions
    | Reporting(outcome: Outcome, due: int)   // heartbeat cancelled, result not yet written
    | Deleting                               // the message can be deleted

  datatype Handler = Handler(worker: WorkerId, task: TaskId, msg: MsgId, phase: Phase)

  datatype Message = Message(task: TaskId, visibleAt: int)

  datatype Send = Send(task: TaskId, queue: Queue)

  /** One orphan-recovery pass: when it read the expired rows, and those not yet written. */
  datatype Recovery = Recovery(readAt: int, remaining: set<TaskId>)

  datatype State = State(
    now: int,
    tasks: map<TaskId, Row>,
    messages: map<MsgId, Message>,        // undeleted
    sent: map<MsgId, Send>,               // every message ever sent
    home: map<TaskId, MsgId>,             // the latest message sent for each task id ever created
    handlers: map<HandlerId, Handler>,    // live ones
    passes: map<PassId, Recovery>,        // recovery passes under way
    lastRead: int                         // the latest read of a completed recovery pass
  )

  const Init: State := State(0, map[], map[], map[], map[], map[], map[], 0)

  datatype Step =
    | Create(job: JobId, trigger: Trigger, id: TaskId, msg: MsgId)
    | ManualRetry(failed: TaskId, id: TaskId, msg: MsgId)
    | Receive(h: HandlerId, worker: WorkerId, msg: MsgId)
    | Claim(h: HandlerId, stamp: int)
    | Miss(h: HandlerId)
    | Reread(h: HandlerId)
    | Decide(h: HandlerId)
    | JobFound(h: HandlerId)
    | JobMissing(h: HandlerId)
    | Beat(h: HandlerId, stamp: int, locks: bool, shows: bool)
    | ExecEnds(h: HandlerId, success: bool)
    | Report(h: HandlerId, maxRetries: nat, id: TaskId, msg: MsgId)
    | Delete(h: HandlerId)
    | Crash(h: HandlerId)
    | RecoverRead(pass: PassId)
    | RecoverWrite(pass: PassId, task: TaskId)
    | RecoverDone(pass: PassId)
    | RecoverAbort(pass: PassId)
    | MarkProcessed(task: TaskId)
    | RemoveJob(job: JobId)
    | Tick(dt: nat)

  /** The handler holds a claim: it will write a result unless it crashes. */
  predicate Owns(h: Handler) {
    h.phase.Lookup? || h.phase.Executing? || h.phase.Reporting?
  }

  /** The latest time at which a claim-holding handler is still in its phase. */
  function Deadline(p: Params, h: Handler): int
    requires Owns(h)
  {
    match h.phase
    case Lookup(stamp) => stamp + LookupTime() + p.delay
    case Executing(asleep, _) => asleep + Interval(p) + p.delay
    case Reporting(_, due) => due
  }

  function Earlier(a: int, b: int): int {
    if a <= b then a else b
  }

  function Later(a: int, b: int): int {
    if a <= b then b else a
  }

  predicate Fresh(s: State, id: TaskId, msg: MsgId) {
    id !in s.home && msg !in s.sent
  }

  predicate In(s: State, h: HandlerId) {
    h in s.handlers
  }

  predicate Enabled(p: Params, s: State, step: Step) {
    match step
    case Create(_, _, id, msg) => Fresh(s, id, msg)
    case ManualRetry(failed, id, msg) =>
      Fresh(s, id, msg) && failed in s.tasks && s.tasks[failed].status in {Failed, FinalFailed}
    case Receive(h, _, msg) => !In(s, h) && msg in s.messages && s.messages[msg].visibleAt <= s.now
    case Claim(h, stamp) =>
      && In(s, h) && s.handlers[h].phase.Claiming?
      && Claimable(s, s.handlers[h].task)
      && stamp <= s.now <= stamp + p.delay
    case Miss(h) => In(s, h) && s.handlers[h].phase.Claiming? && !Claimable(s, s.handlers[h].task)
    case Reread(h) => In(s, h) && s.handlers[h].phase.Rereading?
    case Decide(h) => In(s, h) && s.handlers[h].phase.Lost?
    case JobFound(h) => In(s, h) && s.handlers[h].phase.Lookup?
    case JobMissing(h) => In(s, h) && s.handlers[h].phase.Lookup?
    case Beat(h, stamp, locks, _) =>
      && In(s, h) && s.handlers[h].phase.Executing?
      && s.handlers[h].phase.asleep + Interval(p) <= stamp <= s.now
      && (locks || s.handlers[h].phase.missed < p.misses)
    case ExecEnds(h, _) => In(s, h) && s.handlers[h].phase.Executing?
    case Report(h, _, id, msg) => In(s, h) && s.handlers[h].phase.Reporting? && Fresh(s, id, msg)
    case Delete(h) => In(s, h) && s.handlers[h].phase.Deleting?
    case Crash(h) => In(s, h)
    case RecoverRead(a) => a !in s.passes && (p.overlap || s.passes == map[])
    case RecoverWrite(a, task) => a in s.passes && task in s.passes[a].remaining
    case RecoverDone(a) => a in s.passes && s.passes[a].remaining == {}
    case RecoverAbort(a) => a in s.passes
    case MarkProcessed(task) => task in s.tasks && s.tasks[task].status == Success
    case RemoveJob(_) => true
    case Tick(dt) => forall h | h in s.handlers && Owns(s.handlers[h]) :: s.now + dt <= Deadline(p, s.handlers[h])
  }

  predicate Claimable(s: State, task: TaskId) {
    task in s.tasks && s.tasks[task].status == Pending
  }

  function At(s: State, h: HandlerId, phase: Phase): State
    requires In(s, h)
  {
    s.(handlers := s.handlers[h := s.handlers[h].(phase := phase)])
  }

  function End(s: State, h: HandlerId): State {
    s.(handlers := s.handlers - {h})
  }

  /** Commit a new row and send its one message. */
  function Enqueue(s: State, id: TaskId, row: Row, msg: MsgId, queue: Queue): State {
    s.(tasks := s.tasks[id := row],
       messages := s.messages[msg := Message(id, s.now)],
       sent := s.sent[msg := Send(id, queue)],
       home := s.home[id := msg])
  }

  function Next(p: Params, s: State, step: Step): State
    requires Enabled(p, s, step)
  {
    match step
    case Create(job, trigger, id, msg) =>
      Enqueue(s, id, NewRow(job, trigger, 0, s.now, Origin(id, 0)), msg,
              if trigger == Scheduled then ScheduledQueue else NormalQueue)
    case ManualRetry(failed, id, msg) =>
      var row := s.tasks[failed];
      Enqueue(s, id, NewRow(row.job, row.trigger, row.retryCount + 1, s.now, Origin(id, row.retryCount + 1)), msg, RetryQueue)
    case Receive(h, worker, msg) =>
      var task := s.messages[msg].task;
      s.(messages := s.messages[msg := Message(task, s.now + LeaseTime(p))],
         handlers := s.handlers[h := Handler(worker, task, msg, Claiming(0))])
    case Claim(h, stamp) =>
      var task := s.handlers[h].task;
      At(s, h, Lookup(stamp)).(
        tasks := s.tasks[task := Claimed(s.tasks[task], s.handlers[h].worker, stamp, LeaseTime(p))])
    case Miss(h) => At(s, h, Rereading(s.handlers[h].phase.attempt))
    case Reread(h) =>
      var task, attempt := s.handlers[h].task, s.handlers[h].phase.attempt;
      if task in s.tasks && s.tasks[task].status != Pending then At(s, h, Lost)
      else if attempt < LOOKUP_ATTEMPTS - 1 then At(s, h, Claiming(attempt + 1))
      else At(s, h, Lost)
    case Decide(h) =>
      var task := s.handlers[h].task;
      if task !in s.tasks || Terminal(s.tasks[task].status) then At(s, h, Deleting) else End(s, h)
    case JobFound(h) => At(s, h, Executing(s.now, 0))
    case JobMissing(h) => At(s, h, Reporting(NoJob, s.now + p.delay))
    case Beat(h, stamp, locks, shows) =>
      var hd := s.handlers[h];
      At(s, h, Executing(s.now, if locks then 0 else hd.phase.missed + 1)).(
        tasks := if locks && hd.task in s.tasks
          then s.tasks[hd.task := Extended(s.tasks[hd.task], hd.worker, stamp + LeaseTime(p))] else s.tasks,
        messages := if shows && hd.msg in s.messages
          then s.messages[hd.msg := Message(s.messages[hd.msg].task, s.now + LeaseTime(p))] else s.messages)
    case ExecEnds(h, success) =>
      var due := Earlier(s.now + p.delay, Deadline(p, s.handlers[h]));
      At(s, h, Reporting(if success then Succeeded else Broke, due))
    case Report(h, maxRetries, id, msg) =>
      var task := s.handlers[h].task;
      if task !in s.tasks then End(s, h) else
      var row := s.tasks[task];
      var retry := s.handlers[h].phase.outcome == Broke && row.retryCount < maxRetries;
      var status := if s.handlers[h].phase.outcome == Succeeded then Success
                    else if retry then Failed else FinalFailed;
      var written := At(s, h, Deleting).(tasks := s.tasks[task := Finished(row, status, s.now)]);
      if retry
      then Enqueue(written, id, NewRow(row.job, row.trigger, row.retryCount + 1, s.now, row.origin), msg, RetryQueue)
      else written
    case Delete(h) => End(s, h).(messages := s.messages - {s.handlers[h].msg})
    case Crash(h) => End(s, h)
    case RecoverRead(a) =>
      s.(passes := s.passes[a := Recovery(s.now, set t | t in s.tasks && Expired(s.tasks[t], s.now))])
    case RecoverWrite(a, task) =>
      if task in s.tasks
      then s.(tasks := s.tasks[task := Released(s.tasks[task])],
              passes := s.passes[a := Recovery(s.passes[a].readAt, s.passes[a].remaining - {task})])
      else s.(passes := s.passes - {a})
    case RecoverDone(a) => s.(passes := s.passes - {a}, lastRead := Later(s.lastRead, s.passes[a].readAt))
    case RecoverAbort(a) => s.(passes := s.passes - {a})
    case MarkProcessed(task) => s.(tasks := s.tasks[task := Chained(s.tasks[task])])
    case RemoveJob(job) => s.(tasks := map t | t in s.tasks && s.tasks[t].job != job :: s.tasks[t])
    case Tick(dt) => s.(now := s.now + dt)
  }

  /** `states` and `steps` are one run of the protocol from its empty start. */
  ghost predicate Run(p: Params, states: seq<State>, steps: seq<Step>) {
    && |states| == |steps| + 1
    && states[0] == Init
    && forall i {:trigger steps[i]} | 0 <= i < |steps| :: Follows(p, states[i], steps[i], states[i + 1])
  }

  ghost predicate Follows(p: Params, s: State, step: Step, s': State) {
    Enabled(p, s, step) && s' == Next(p, s, step)
  }
}
