/** Messages of the lease protocol: one per task, kept until its task is settled. */
module LeaseMail {
  import opened Tasks
  import opened Lease
  import opened LeaseSafety

  /** Messages and handlers point at what was sent. */
  ghost predicate Addressed(s: State) {
    && (forall m | m in s.messages :: m in s.sent && s.sent[m].task == s.messages[m].task)
    && (forall h | h in s.handlers :: s.handlers[h].msg in s.sent && s.sent[s.handlers[h].msg].task == s.handlers[h].task)
  }

  /** Every task id was sent exactly once, and where it went can be read off its row. */
  ghost predicate Routed(s: State) {
    && (forall t | t in s.tasks :: t in s.home)
    && (forall t | t in s.home :: s.home[t] in s.sent && s.sent[s.home[t]].task == t)
    && (forall m | m in s.sent :: s.sent[m].task in s.home && s.home[s.sent[m].task] == m)
    && (forall t | t in s.tasks && t in s.home :: s.sent[s.home[t]].queue == Route(s.tasks[t]))
  }

  ghost predicate Settled(s: State, task: TaskId) {
    task in s.tasks ==> Terminal(s.tasks[task].status)
  }

  /** A message is missing or about to be deleted only when its task is terminal or gone. */
  ghost predicate NothingLost(s: State) {
    && (forall m | m in s.sent && m !in s.messages :: Settled(s, s.sent[m].task))
    && (forall h | h in s.handlers && s.handlers[h].phase.Deleting? :: Settled(s, s.handlers[h].task))
  }

  ghost predicate Mail(s: State) {
    Addressed(s) && Routed(s) && NothingLost(s)
  }

  lemma PhaseKeepsMail(s: State, h: HandlerId, phase: Phase)
    requires Mail(s) && In(s, h) && (phase.Deleting? ==> Settled(s, s.handlers[h].task))
    ensures Mail(At(s, h, phase))
  {
  }

  lemma EndKeepsMail(s: State, h: HandlerId)
    requires Mail(s)
    ensures Mail(End(s, h))
  {
  }

  lemma RowKeepsMail(s: State, t: TaskId, row: Row)
    requires Mail(s) && t in s.tasks && Route(row) == Route(s.tasks[t])
    requires Terminal(s.tasks[t].status) ==> Terminal(row.status)
    ensures Mail(s.(tasks := s.tasks[t := row]))
  {
  }

  lemma EnqueueKeepsMail(s: State, id: TaskId, row: Row, msg: MsgId, queue: Queue)
    requires Mail(s) && Fresh(s, id, msg) && queue == Route(row)
    ensures Mail(Enqueue(s, id, row, msg, queue))
  {
  }

  lemma VisibilityKeepsMail(s: State, m: MsgId, until: int)
    requires Mail(s) && m in s.messages
    ensures Mail(s.(messages := s.messages[m := Message(s.messages[m].task, until)]))
  {
  }

  lemma ReceiveKeepsMail(p: Params, s: State, step: Step)
    requires Mail(s) && step.Receive? && Enabled(p, s, step)
    ensures Mail(Next(p, s, step))
  {
  }

  lemma DeleteKeepsMail(p: Params, s: State, h: HandlerId)
    requires Mail(s) && Enabled(p, s, Delete(h))
    ensures Mail(Next(p, s, Delete(h)))
  {
  }

  lemma RemoveKeepsMail(p: Params, s: State, step: Step)
    requires Mail(s) && step.RemoveJob? && Enabled(p, s, step)
    ensures Mail(Next(p, s, step))
  {
  }

  /** Deciding about a message whose claim was lost: only a settled task's goes. */
  lemma DecideKeepsMail(p: Params, s: State, h: HandlerId)
    requires Mail(s) && Enabled(p, s, Decide(h))
    ensures Mail(Next(p, s, Decide(h)))
  {
    hide Mail;
    if Settled(s, s.handlers[h].task) {
      PhaseKeepsMail(s, h, Deleting);
    } else {
      EndKeepsMail(s, h);
    }
  }

  lemma BeatKeepsMail(p: Params, s: State, step: Step)
    requires Mail(s) && step.Beat? && Enabled(p, s, step)
    ensures Mail(Next(p, s, step))
  {
    hide Mail;
    var hd := s.handlers[step.h];
    PhaseKeepsMail(s, step.h, Beaten(s, step));
    var awake := At(s, step.h, Beaten(s, step));
    var locked := awake.(tasks := Locked(p, s, step));
    if step.locks && hd.task in s.tasks {
      RowKeepsMail(awake, hd.task, Extended(s.tasks[hd.task], hd.worker, step.stamp + LeaseTime(p)));
    } else {
      assert locked == awake;
    }
    if step.shows && hd.msg in s.messages {
      VisibilityKeepsMail(locked, hd.msg, s.now + LeaseTime(p));
    }
  }

  /** A result settles the task before its message can go; a retry brings its own message. */
  lemma ReportKeepsMail(p: Params, s: State, step: Step)
    requires Mail(s) && step.Report? && Enabled(p, s, step)
    ensures Mail(Next(p, s, step))
  {
    hide Mail;
    var Report(h, maxRetries, id, msg) := step;
    var hd := s.handlers[h];
    if hd.task !in s.tasks {
      EndKeepsMail(s, h);
    } else {
      var row := s.tasks[hd.task];
      var retry := hd.phase.outcome == Broke && row.retryCount < maxRetries;
      var status := if hd.phase.outcome == Succeeded then Success else if retry then Failed else FinalFailed;
      var finished := s.(tasks := s.tasks[hd.task := Finished(row, status, s.now)]);
      RowKeepsMail(s, hd.task, Finished(row, status, s.now));
      PhaseKeepsMail(finished, h, Deleting);
      if retry {
        EnqueueKeepsMail(At(finished, h, Deleting), id,
                         NewRow(row.job, row.trigger, row.retryCount + 1, s.now, row.origin), msg, RetryQueue);
      }
    }
  }

  lemma RecoversRunning(p: Params, s: State, a: PassId, t: TaskId)
    requires Claims(p, s) && Left(s.passes, a, t)
    ensures t in s.tasks ==> s.tasks[t].status == Running
  {
  }

  /** Recovery can write unconditionally only because the row is still running. */
  lemma RecoverWriteKeepsMail(p: Params, s: State, a: PassId, t: TaskId)
    requires Claims(p, s) && Mail(s) && Enabled(p, s, RecoverWrite(a, t))
    ensures Mail(Next(p, s, RecoverWrite(a, t)))
  {
    hide Mail, Claims;
    RecoversRunning(p, s, a, t);
    if t in s.tasks {
      RowKeepsMail(s, t, Released(s.tasks[t]));
      SameMail(s.(tasks := s.tasks[t := Released(s.tasks[t])]), Next(p, s, RecoverWrite(a, t)));
    } else {
      SameMail(s, Next(p, s, RecoverWrite(a, t)));
    }
  }

  lemma StepKeepsMail(p: Params, s: State, step: Step)
    requires Claims(p, s) && Mail(s) && Enabled(p, s, step)
    ensures Mail(Next(p, s, step))
  {
    hide Mail, Claims;
    match step
    case Create(job, trigger, id, msg) =>
      EnqueueKeepsMail(s, id, NewRow(job, trigger, 0, s.now, Origin(id, 0)), msg,
                       if trigger == Scheduled then ScheduledQueue else NormalQueue);
    case ManualRetry(failed, id, msg) =>
      var row := s.tasks[failed];
      EnqueueKeepsMail(s, id, NewRow(row.job, row.trigger, row.retryCount + 1, s.now, Origin(id, row.retryCount + 1)), msg, RetryQueue);
    case Receive(_, _, _) => ReceiveKeepsMail(p, s, step);
    case Claim(h, stamp) =>
      var hd := s.handlers[h];
      PhaseKeepsMail(s, h, Lookup(stamp));
      RowKeepsMail(At(s, h, Lookup(stamp)), hd.task, Claimed(s.tasks[hd.task], hd.worker, stamp, LeaseTime(p)));
    case Miss(h) => PhaseKeepsMail(s, h, Rereading(s.handlers[h].phase.attempt));
    case Reread(h) =>
      PhaseKeepsMail(s, h, Lost);
      PhaseKeepsMail(s, h, Claiming(s.handlers[h].phase.attempt + 1));
    case Decide(h) => DecideKeepsMail(p, s, h);
    case JobFound(h) => PhaseKeepsMail(s, h, Executing(s.now, 0));
    case JobMissing(h) => PhaseKeepsMail(s, h, Reporting(NoJob, s.now + p.delay));
    case Beat(_, _, _, _) => BeatKeepsMail(p, s, step);
    case ExecEnds(h, success) =>
      PhaseKeepsMail(s, h, Reporting(if success then Succeeded else Broke, Earlier(s.now + p.delay, Deadline(p, s.handlers[h]))));
    case Report(_, _, _, _) => ReportKeepsMail(p, s, step);
    case Delete(h) => DeleteKeepsMail(p, s, h);
    case Crash(h) => EndKeepsMail(s, h);
    case RecoverWrite(a, t) => RecoverWriteKeepsMail(p, s, a, t);
    case MarkProcessed(t) => RowKeepsMail(s, t, Chained(s.tasks[t]));
    case RemoveJob(_) => RemoveKeepsMail(p, s, step);
    case RecoverRead(_) => SameMail(s, Next(p, s, step));
    case RecoverDone(_) => SameMail(s, Next(p, s, step));
    case RecoverAbort(_) => SameMail(s, Next(p, s, step));
    case Tick(_) => SameMail(s, Next(p, s, step));
  }

  lemma SameMail(s: State, s': State)
    requires Mail(s) && s' == s.(now := s'.now, passes := s'.passes, lastRead := s'.lastRead)
    ensures Mail(s')
  {
  }

  // ---- Routing needs no timing ----

  lemma EnqueueKeepsRouted(s: State, id: TaskId, row: Row, msg: MsgId, queue: Queue)
    requires Routed(s) && Fresh(s, id, msg) && queue == Route(row)
    ensures Routed(Enqueue(s, id, row, msg, queue))
  {
  }

  lemma RowKeepsRouted(s: State, s': State, t: TaskId, row: Row)
    requires Routed(s) && t in s.tasks && Route(row) == Route(s.tasks[t])
    requires s'.tasks == s.tasks[t := row] && s'.home == s.home && s'.sent == s.sent
    ensures Routed(s')
  {
  }

  lemma SameRouted(s: State, s': State)
    requires Routed(s) && s'.home == s.home && s'.sent == s.sent
    requires forall t | t in s'.tasks :: t in s.tasks && s'.tasks[t] == s.tasks[t]
    ensures Routed(s')
  {
  }

  lemma ReportKeepsRouted(p: Params, s: State, step: Step)
    requires Routed(s) && step.Report? && Enabled(p, s, step)
    ensures Routed(Next(p, s, step))
  {
    hide Routed;
    var Report(h, maxRetries, id, msg) := step;
    var hd := s.handlers[h];
    if hd.task !in s.tasks {
      SameRouted(s, Next(p, s, step));
    } else {
      var row := s.tasks[hd.task];
      var retry := hd.phase.outcome == Broke && row.retryCount < maxRetries;
      var status := if hd.phase.outcome == Succeeded then Success else if retry then Failed else FinalFailed;
      var written := At(s, h, Deleting).(tasks := s.tasks[hd.task := Finished(row, status, s.now)]);
      RowKeepsRouted(s, written, hd.task, Finished(row, status, s.now));
      if retry {
        EnqueueKeepsRouted(written, id, NewRow(row.job, row.trigger, row.retryCount + 1, s.now, row.origin), msg, RetryQueue);
      }
    }
  }

  ghost predicate Quiet(step: Step) {
    !(step.Create? || step.ManualRetry? || step.Report? || step.Claim? || step.Beat? || step.RecoverWrite? || step.MarkProcessed?)
  }

  lemma QuietKeepsRouted(p: Params, s: State, step: Step)
    requires Routed(s) && Quiet(step) && Enabled(p, s, step)
    ensures Routed(Next(p, s, step))
  {
    hide Routed, Deadline;
    SameRouted(s, Next(p, s, step));
  }

  /** Whatever the timing and however recovery passes overlap. */
  lemma StepKeepsRouted(p: Params, s: State, step: Step)
    requires Routed(s) && Enabled(p, s, step)
    ensures Routed(Next(p, s, step))
  {
    hide Routed;
    var s' := Next(p, s, step);
    match step
    case Create(job, trigger, id, msg) =>
      EnqueueKeepsRouted(s, id, NewRow(job, trigger, 0, s.now, Origin(id, 0)), msg,
                         if trigger == Scheduled then ScheduledQueue else NormalQueue);
    case ManualRetry(failed, id, msg) =>
      var row := s.tasks[failed];
      EnqueueKeepsRouted(s, id, NewRow(row.job, row.trigger, row.retryCount + 1, s.now, Origin(id, row.retryCount + 1)), msg, RetryQueue);
    case Report(_, _, _, _) => ReportKeepsRouted(p, s, step);
    case Claim(h, stamp) =>
      var hd := s.handlers[h];
      RowKeepsRouted(s, s', hd.task, Claimed(s.tasks[hd.task], hd.worker, stamp, LeaseTime(p)));
    case Beat(h, stamp, locks, _) =>
      var hd := s.handlers[h];
      if locks && hd.task in s.tasks {
        RowKeepsRouted(s, s', hd.task, Extended(s.tasks[hd.task], hd.worker, stamp + LeaseTime(p)));
      } else {
        SameRouted(s, s');
      }
    case RecoverWrite(_, t) =>
      if t in s.tasks {
        RowKeepsRouted(s, s', t, Released(s.tasks[t]));
      } else {
        SameRouted(s, s');
      }
    case MarkProcessed(t) => RowKeepsRouted(s, s', t, Chained(s.tasks[t]));
    case _ => QuietKeepsRouted(p, s, step);
  }
}
