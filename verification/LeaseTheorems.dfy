/** The lease protocol over whole runs. */
module LeaseTheorems {
  import opened Tasks
  import opened Lease
  import opened LeaseSafety
  import opened LeaseMail

  /** Until state `n`, no two recovery passes had the same row left to write. */
  ghost predicate FencedTo(states: seq<State>, n: nat)
    requires n <= |states|
  {
    forall i | 0 <= i < n :: Apart(states[i])
  }

  /** Every state of every run within the budget satisfies the invariants, while passes are
      apart. */
  lemma {:induction false} RunsKeepInvariants(p: Params, states: seq<State>, steps: seq<Step>, i: nat)
    requires Budget(p) && Run(p, states, steps) && i < |states| && FencedTo(states, i)
    ensures Claims(p, states[i]) && Mail(states[i])
  {
    if i > 0 {
      hide Claims, Mail, Next, Enabled, Apart;
      RunsKeepInvariants(p, states, steps, i - 1);
      assert Follows(p, states[i - 1], steps[i - 1], states[i]);
      StepKeeps(p, states[i - 1], steps[i - 1]);
      StepKeepsMail(p, states[i - 1], steps[i - 1]);
    }
  }

  /** If passes may not overlap, there is at most one. */
  lemma {:induction false} OnePass(p: Params, states: seq<State>, steps: seq<Step>, i: nat)
    requires !p.overlap && Run(p, states, steps) && i < |states|
    ensures forall a, b | a in states[i].passes && b in states[i].passes :: a == b
  {
    if i > 0 {
      OnePass(p, states, steps, i - 1);
      assert Follows(p, states[i - 1], steps[i - 1], states[i]);
    }
  }

  lemma OnePassIsFenced(p: Params, states: seq<State>, steps: seq<Step>)
    requires !p.overlap && Run(p, states, steps)
    ensures FencedTo(states, |states|)
  {
    forall i | 0 <= i < |states|
      ensures Apart(states[i])
    {
      OnePass(p, states, steps, i);
    }
  }

  // ---- Status histories ----

  /** One step seen from the task table: rows appear as pending, change status only along
      an arrow of the diagram, and a settled row keeps its result. */
  ghost predicate Lawful(s: State, s': State) {
    && (forall t | t in s'.tasks && t !in s.tasks :: t !in s.home && s'.tasks[t].status == Pending)
    && (forall t | t in s'.tasks && t in s.tasks ::
          || s'.tasks[t].status == s.tasks[t].status
          || Arrow(s.tasks[t].status, s'.tasks[t].status))
    && (forall t | t in s'.tasks && t in s.tasks && Terminal(s.tasks[t].status) ::
          s'.tasks[t] == s.tasks[t].(processed := s'.tasks[t].processed))
    && (forall t | t in s.home :: t in s'.home)
  }

  /** A result is written, and a lock extended, only by the row's holder; recovery writes
      only rows nobody holds. */
  ghost predicate WritesOwn(s: State, step: Step) {
    && s.tasks.Keys <= s.home.Keys
    && ((step.Report? || step.Beat?) && In(s, step.h) && s.handlers[step.h].task in s.tasks ==>
          s.tasks[s.handlers[step.h].task].status == Running)
    && (step.RecoverWrite? && step.task in s.tasks ==> s.tasks[step.task].status == Running && Unowned(s, step.task))
  }

  lemma StepWritesOwn(p: Params, s: State, step: Step)
    requires Claims(p, s) && Enabled(p, s, step)
    ensures WritesOwn(s, step)
  {
    assert step.RecoverWrite? ==> Left(s.passes, step.pass, step.task);
  }

  lemma WriteIsLawful(s: State, s': State, t: TaskId, row: Row)
    requires t in s.tasks && s'.tasks == s.tasks[t := row] && s'.home == s.home
    requires row.status == s.tasks[t].status || Arrow(s.tasks[t].status, row.status)
    requires Terminal(s.tasks[t].status) ==> row == s.tasks[t].(processed := row.processed)
    ensures Lawful(s, s')
  {
  }

  lemma EnqueueIsLawful(s: State, s': State, id: TaskId, row: Row, msg: MsgId, queue: Queue)
    requires Lawful(s, s') && s'.home == s.home && s.tasks.Keys <= s.home.Keys && s'.tasks.Keys <= s.home.Keys
    requires id !in s.home && row.status == Pending
    ensures Lawful(s, Enqueue(s', id, row, msg, queue))
  {
  }

  lemma ReportIsLawful(p: Params, s: State, step: Step)
    requires step.Report? && WritesOwn(s, step) && Enabled(p, s, step)
    ensures Lawful(s, Next(p, s, step))
  {
    hide Lawful;
    var Report(h, maxRetries, id, msg) := step;
    var hd := s.handlers[h];
    if hd.task in s.tasks {
      var row := s.tasks[hd.task];
      var retry := hd.phase.outcome == Broke && row.retryCount < maxRetries;
      var status := if hd.phase.outcome == Succeeded then Success else if retry then Failed else FinalFailed;
      var written := At(s, h, Deleting).(tasks := s.tasks[hd.task := Finished(row, status, s.now)]);
      WriteIsLawful(s, written, hd.task, Finished(row, status, s.now));
      if retry {
        EnqueueIsLawful(s, written, id, NewRow(row.job, row.trigger, row.retryCount + 1, s.now, row.origin), msg, RetryQueue);
      }
    } else {
      QuietIsLawful(s, Next(p, s, step));
    }
  }

  lemma QuietIsLawful(s: State, s': State)
    requires s'.tasks == s.tasks && s'.home == s.home && s.tasks.Keys <= s.home.Keys
    ensures Lawful(s, s')
  {
  }

  lemma RemoveIsLawful(s: State, s': State)
    requires s'.home == s.home && s'.tasks.Keys <= s.tasks.Keys && forall t | t in s'.tasks :: s'.tasks[t] == s.tasks[t]
    ensures Lawful(s, s')
  {
  }

  lemma QuietStepIsLawful(p: Params, s: State, step: Step)
    requires WritesOwn(s, step) && Enabled(p, s, step) && Quiet(step) && !step.RemoveJob?
    ensures Lawful(s, Next(p, s, step))
  {
    hide Lawful, Deadline;
    QuietIsLawful(s, Next(p, s, step));
  }

  /** So the unconditional writes still respect the diagram. */
  lemma StepIsLawful(p: Params, s: State, step: Step)
    requires WritesOwn(s, step) && Enabled(p, s, step)
    ensures Lawful(s, Next(p, s, step))
  {
    hide Lawful;
    var s' := Next(p, s, step);
    match step
    case Create(job, trigger, id, msg) =>
      QuietIsLawful(s, s);
      EnqueueIsLawful(s, s, id, NewRow(job, trigger, 0, s.now, Origin(id, 0)), msg,
                      if trigger == Scheduled then ScheduledQueue else NormalQueue);
    case ManualRetry(failed, id, msg) =>
      var row := s.tasks[failed];
      QuietIsLawful(s, s);
      EnqueueIsLawful(s, s, id, NewRow(row.job, row.trigger, row.retryCount + 1, s.now, Origin(id, row.retryCount + 1)), msg, RetryQueue);
    case Report(_, _, _, _) => ReportIsLawful(p, s, step);
    case Claim(h, stamp) =>
      var hd := s.handlers[h];
      WriteIsLawful(s, s', hd.task, Claimed(s.tasks[hd.task], hd.worker, stamp, LeaseTime(p)));
    case Beat(h, stamp, locks, _) =>
      var hd := s.handlers[h];
      if locks && hd.task in s.tasks {
        WriteIsLawful(s, s', hd.task, Extended(s.tasks[hd.task], hd.worker, stamp + LeaseTime(p)));
      } else {
        QuietIsLawful(s, s');
      }
    case RecoverWrite(_, t) =>
      if t in s.tasks {
        WriteIsLawful(s, s', t, Released(s.tasks[t]));
      } else {
        QuietIsLawful(s, s');
      }
    case MarkProcessed(t) => WriteIsLawful(s, s', t, Chained(s.tasks[t]));
    case RemoveJob(_) => RemoveIsLawful(s, s');
    case _ => QuietStepIsLawful(p, s, step);
  }

  lemma RunIsLawful(p: Params, states: seq<State>, steps: seq<Step>, i: nat)
    requires Budget(p) && Run(p, states, steps) && i < |steps| && FencedTo(states, i)
    ensures WritesOwn(states[i], steps[i]) && Lawful(states[i], states[i + 1])
  {
    hide Claims, Mail, Lawful, WritesOwn, Next, Enabled;
    RunsKeepInvariants(p, states, steps, i);
    assert Follows(p, states[i], steps[i], states[i + 1]);
    StepWritesOwn(p, states[i], steps[i]);
    StepIsLawful(p, states[i], steps[i]);
  }

  /** A recorded result is never changed or undone later in a run. */
  lemma {:induction false} ResultsAreFinal(p: Params, states: seq<State>, steps: seq<Step>, i: nat, j: nat, t: TaskId)
    requires Budget(p) && Run(p, states, steps) && i <= j < |states| && FencedTo(states, j)
    requires t in states[i].tasks && Terminal(states[i].tasks[t].status)
    ensures t in states[j].home
    ensures t in states[j].tasks ==>
      states[j].tasks[t] == states[i].tasks[t].(processed := states[j].tasks[t].processed)
    decreases j - i
  {
    if i == j {
      RunsKeepInvariants(p, states, steps, i);
      AllKnown(p, states[i]);
    } else {
      ResultsAreFinal(p, states, steps, i, j - 1, t);
      RunIsLawful(p, states, steps, j - 1);
      hide Run, Apart;
    }
  }

  lemma AllKnown(p: Params, s: State)
    requires Claims(p, s)
    ensures s.tasks.Keys <= s.home.Keys
  {
  }

  // ---- No lost task, and routing ----

  /** Each pending or running task has exactly one undeleted message. */
  lemma NoLostTask(p: Params, states: seq<State>, steps: seq<Step>, i: nat, t: TaskId)
    requires Budget(p) && Run(p, states, steps) && i < |states| && FencedTo(states, i)
    requires t in states[i].tasks && !Terminal(states[i].tasks[t].status)
    ensures exists m :: m in states[i].messages && states[i].messages[m].task == t
    ensures forall m, n | m in states[i].messages && n in states[i].messages ::
      states[i].messages[m].task == t && states[i].messages[n].task == t ==> m == n
  {
    RunsKeepInvariants(p, states, steps, i);
    var s := states[i];
    hide Claims;
    assert s.sent[s.home[t]].task == t;
    assert s.home[t] in s.messages;
  }

  /** A message disappears only by a deletion, and only when its task is terminal or gone. */
  lemma DeletedOnlyWhenSettled(p: Params, states: seq<State>, steps: seq<Step>, i: nat, m: MsgId)
    requires Budget(p) && Run(p, states, steps) && i < |steps| && FencedTo(states, i)
    requires m in states[i].messages && m !in states[i + 1].messages
    ensures steps[i].Delete? && Settled(states[i], states[i].messages[m].task)
  {
    hide Claims, Mail, Settled, Next, Enabled;
    RunsKeepInvariants(p, states, steps, i);
    assert Follows(p, states[i], steps[i], states[i + 1]);
    StepDeletesSettled(p, states[i], steps[i], m);
  }

  lemma StepDeletesSettled(p: Params, s: State, step: Step, m: MsgId)
    requires Mail(s) && Enabled(p, s, step) && m in s.messages && m !in Next(p, s, step).messages
    ensures step.Delete? && Settled(s, s.messages[m].task)
  {
    OnlyDeleteRemoves(p, s, step);
  }

  lemma OnlyDeleteRemoves(p: Params, s: State, step: Step)
    requires Enabled(p, s, step)
    ensures step.Delete? || s.messages.Keys <= Next(p, s, step).messages.Keys
  {
  }

  /** In every run, whatever the timing, every task id was sent once: to the retry queue if its
      row has retries, else to the scheduled queue if cron triggered it, else to the normal one. */
  lemma SentOnceWhereRowSays(p: Params, states: seq<State>, steps: seq<Step>, i: nat, t: TaskId)
    requires Run(p, states, steps) && i < |states| && t in states[i].tasks
    ensures exists m :: m in states[i].sent && states[i].sent[m].task == t
    ensures forall m, n | m in states[i].sent && n in states[i].sent ::
      states[i].sent[m].task == t && states[i].sent[n].task == t ==> m == n
    ensures forall m | m in states[i].sent && states[i].sent[m].task == t ::
      var row, queue := states[i].tasks[t], states[i].sent[m].queue;
      && (queue == RetryQueue <==> row.retryCount > 0)
      && (queue == ScheduledQueue <==> row.retryCount == 0 && row.trigger == Scheduled)
      && (queue == NormalQueue <==> row.retryCount == 0 && row.trigger != Scheduled)
  {
    RunsStayRouted(p, states, steps, i);
    var s := states[i];
    assert s.sent[s.home[t]] == Send(t, Route(s.tasks[t]));
  }

  lemma {:induction false} RunsStayRouted(p: Params, states: seq<State>, steps: seq<Step>, i: nat)
    requires Run(p, states, steps) && i < |states|
    ensures Routed(states[i])
  {
    if i > 0 {
      hide Routed, Next, Enabled;
      RunsStayRouted(p, states, steps, i - 1);
      assert Follows(p, states[i - 1], steps[i - 1], states[i]);
      StepKeepsRouted(p, states[i - 1], steps[i - 1]);
    }
  }
}
