/** What every step of the lease protocol keeps when the timing budget holds. */
module LeaseSafety {
  import opened Tasks
  import opened Lease

  /** How much longer than its phase a claim must last: the heartbeat rounds that may still fail. */
  ghost function Reserve(p: Params, h: Handler): nat {
    if h.phase.Executing? && h.phase.missed <= p.misses then Rounds(p, p.misses - h.phase.missed) else 0
  }

  /** A claim-holding handler's row is running, locked by it, and stays locked for as long as
      the handler can remain in its phase and its failing heartbeats can last. */
  ghost predicate Secured(p: Params, s: State, h: Handler)
    requires Owns(h)
  {
    h.task in s.tasks ==>
      var row := s.tasks[h.task];
      && row.status == Running
      && row.lockedBy == Some(h.worker)
      && row.lockedUntil.Some?
      && Deadline(p, h) + Reserve(p, h) <= row.lockedUntil.value
      && (h.phase.Lookup? ==> row.lockedUntil == Some(h.phase.stamp + LeaseTime(p)))
  }

  ghost predicate OnTime(p: Params, s: State, h: Handler)
    requires Owns(h)
  {
    s.now <= Deadline(p, h) && (h.phase.Executing? ==> h.phase.missed <= p.misses)
  }

  ghost predicate Ownership(p: Params, s: State) {
    forall h | h in s.handlers && Owns(s.handlers[h]) :: Secured(p, s, s.handlers[h]) && OnTime(p, s, s.handlers[h])
  }

  /** No task has two live handlers holding its claim. */
  ghost predicate Exclusive(s: State) {
    forall h, k | h in s.handlers && k in s.handlers && h != k && Owns(s.handlers[h]) && Owns(s.handlers[k]) ::
      s.handlers[h].task != s.handlers[k].task
  }

  ghost predicate Unowned(s: State, task: TaskId) {
    forall h | h in s.handlers && Owns(s.handlers[h]) :: s.handlers[h].task != task
  }

  /** Pass `a` has yet to write the row of `t`, if it still exists. */
  ghost predicate Left(passes: map<PassId, Recovery>, a: PassId, t: TaskId) {
    a in passes && t in passes[a].remaining
  }

  /** Recovery has only dead workers' tasks left to write. */
  ghost predicate RecoversDead(s: State) {
    forall a, t | Left(s.passes, a, t) && t in s.tasks :: s.tasks[t].status == Running && Unowned(s, t)
  }

  /** No two passes have the same row left to write. Not part of the invariant: the program
      does not fence a former leader's pass. */
  ghost predicate Apart(s: State) {
    forall a, b, t | Left(s.passes, a, t) && Left(s.passes, b, t) && t in s.tasks :: a == b
  }

  /** Nothing refers to a task id that was never created. */
  ghost predicate Known(s: State) {
    && s.tasks.Keys <= s.home.Keys
    && (forall h | h in s.handlers :: s.handlers[h].task in s.home)
    && (forall m | m in s.messages :: s.messages[m].task in s.home)
    && (forall a | a in s.passes :: s.passes[a].remaining <= s.home.Keys)
  }

  ghost predicate RowsConsistent(s: State) {
    forall t | t in s.tasks ::
      var row := s.tasks[t];
      && (row.status == Running ==> row.lockedUntil.Some?)
      && (Terminal(row.status) <==> row.finishedAt.Some?)
      && row.createdAt <= CompletedAt(row) <= s.now
      && (row.processed ==> row.status == Success)
  }

  /** Locks and invisibility reach at most one lease ahead. */
  ghost predicate DeadlinesNear(p: Params, s: State) {
    && (forall t | t in s.tasks && s.tasks[t].lockedUntil.Some? :: s.tasks[t].lockedUntil.value <= s.now + LeaseTime(p))
    && (forall m | m in s.messages :: s.messages[m].visibleAt <= s.now + LeaseTime(p))
    && s.lastRead <= s.now
    && (forall a | a in s.passes :: s.passes[a].readAt <= s.now)
  }

  ghost predicate Claims(p: Params, s: State) {
    && Ownership(p, s)
    && Exclusive(s)
    && RecoversDead(s)
    && RowsConsistent(s)
    && DeadlinesNear(p, s)
    && Known(s)
  }

  // ---- Elementary changes ----

  /** A handler may enter `phase`: a claim must be secured and exclusive. */
  ghost predicate MayEnter(p: Params, s: State, h: HandlerId, phase: Phase)
    requires In(s, h)
  {
    var hd := s.handlers[h].(phase := phase);
    Owns(hd) ==>
      && Secured(p, s, hd) && OnTime(p, s, hd)
      && (forall k | k in s.handlers && k != h && Owns(s.handlers[k]) :: s.handlers[k].task != hd.task)
      && (hd.task in s.tasks ==> forall a :: !Left(s.passes, a, hd.task))
  }

  lemma PhaseKeeps(p: Params, s: State, h: HandlerId, phase: Phase)
    requires Claims(p, s) && In(s, h) && MayEnter(p, s, h, phase)
    ensures Claims(p, At(s, h, phase))
  {
  }

  lemma EndKeeps(p: Params, s: State, h: HandlerId)
    requires Claims(p, s)
    ensures Claims(p, End(s, h))
  {
  }

  /** A row may become `row`: a live claim on it and a recovery of it stay justified. */
  ghost predicate MayBecome(p: Params, s: State, t: TaskId, row: Row)
    requires t in s.tasks
  {
    && (row.status == Running ==> row.lockedUntil.Some?)
    && (Terminal(row.status) <==> row.finishedAt.Some?)
    && row.createdAt <= CompletedAt(row) <= s.now
    && (row.processed ==> row.status == Success)
    && (row.lockedUntil.Some? ==> row.lockedUntil.value <= s.now + LeaseTime(p))
    && (forall a | Left(s.passes, a, t) :: row.status == Running)
    && (forall h | h in s.handlers && Owns(s.handlers[h]) && s.handlers[h].task == t ::
          Secured(p, s.(tasks := s.tasks[t := row]), s.handlers[h]))
  }

  lemma RowKeeps(p: Params, s: State, t: TaskId, row: Row)
    requires Claims(p, s) && t in s.tasks && MayBecome(p, s, t, row)
    ensures Claims(p, s.(tasks := s.tasks[t := row]))
  {
  }

  lemma EnqueueKeeps(p: Params, s: State, id: TaskId, row: Row, msg: MsgId, queue: Queue)
    requires Claims(p, s) && Fresh(s, id, msg)
    requires row == NewRow(row.job, row.trigger, row.retryCount, s.now, row.origin)
    ensures Claims(p, Enqueue(s, id, row, msg, queue))
  {
  }

  // ---- Steps ----

  lemma ClaimKeeps(p: Params, s: State, h: HandlerId, stamp: int)
    requires Budget(p) && Claims(p, s) && Enabled(p, s, Claim(h, stamp))
    ensures Claims(p, Next(p, s, Claim(h, stamp)))
  {
    var hd := s.handlers[h];
    var row := Claimed(s.tasks[hd.task], hd.worker, stamp, LeaseTime(p));
    var running := s.(tasks := s.tasks[hd.task := row]);
    RowKeeps(p, s, hd.task, row);
    PhaseKeeps(p, running, h, Lookup(stamp));
  }

  ghost function Locked(p: Params, s: State, step: Step): map<TaskId, Row>
    requires step.Beat? && In(s, step.h)
  {
    var hd := s.handlers[step.h];
    if step.locks && hd.task in s.tasks
    then s.tasks[hd.task := Extended(s.tasks[hd.task], hd.worker, step.stamp + LeaseTime(p))]
    else s.tasks
  }

  ghost function Beaten(s: State, step: Step): Phase
    requires step.Beat? && In(s, step.h) && s.handlers[step.h].phase.Executing?
  {
    Executing(s.now, if step.locks then 0 else s.handlers[step.h].phase.missed + 1)
  }

  /** A failed extension uses up one round of the reserve. */
  lemma MissFits(p: Params, s: State, step: Step)
    requires Claims(p, s) && step.Beat? && !step.locks && Enabled(p, s, step)
    ensures MayEnter(p, s, step.h, Beaten(s, step))
  {
    var hd := s.handlers[step.h];
    assert Secured(p, s, hd) && OnTime(p, s, hd);
    assert Rounds(p, p.misses - hd.phase.missed) == Interval(p) + p.delay + Rounds(p, p.misses - hd.phase.missed - 1);
  }

  /** A successful one restores it in full. */
  lemma ExtendKeeps(p: Params, s: State, step: Step)
    requires Budget(p) && Claims(p, s) && step.Beat? && step.locks && Enabled(p, s, step)
    ensures
      var locked := s.(tasks := Locked(p, s, step));
      Claims(p, locked) && MayEnter(p, locked, step.h, Beaten(s, step))
  {
    hide Claims, MayEnter, MayBecome;
    var hd := s.handlers[step.h];
    LockedMayEnter(p, s, step);
    if hd.task in s.tasks {
      HolderMayExtend(p, s, step.h, step.stamp);
      RowKeeps(p, s, hd.task, Extended(s.tasks[hd.task], hd.worker, step.stamp + LeaseTime(p)));
    } else {
      assert s.(tasks := Locked(p, s, step)) == s;
    }
  }

  lemma LockedMayEnter(p: Params, s: State, step: Step)
    requires Budget(p) && Claims(p, s) && step.Beat? && step.locks && Enabled(p, s, step)
    ensures MayEnter(p, s.(tasks := Locked(p, s, step)), step.h, Beaten(s, step))
  {
    var hd := s.handlers[step.h];
    assert Secured(p, s, hd) && OnTime(p, s, hd);
    if hd.task in s.tasks {
      RestoredFits(p, s.(tasks := Locked(p, s, step)), hd.(phase := Beaten(s, step)), step.stamp);
    }
    assert Exclusive(s) && RecoversDead(s);
    hide Claims, Ownership, RowsConsistent, DeadlinesNear, Known, Rounds, Budget;
  }

  lemma RestoredFits(p: Params, s: State, h: Handler, stamp: int)
    requires Budget(p) && h.phase == Executing(s.now, 0) && h.task in s.tasks && stamp <= s.now <= stamp + p.delay
    requires var row := s.tasks[h.task]; row.status == Running && row.lockedBy == Some(h.worker) && row.lockedUntil == Some(stamp + LeaseTime(p))
    ensures Secured(p, s, h) && OnTime(p, s, h)
  {
  }

  lemma HolderMayExtend(p: Params, s: State, h: HandlerId, stamp: int)
    requires Budget(p) && Claims(p, s) && In(s, h) && s.handlers[h].phase.Executing? && s.handlers[h].task in s.tasks
    requires s.handlers[h].phase.asleep + Interval(p) <= stamp <= s.now
    ensures MayBecome(p, s, s.handlers[h].task, Extended(s.tasks[s.handlers[h].task], s.handlers[h].worker, stamp + LeaseTime(p)))
  {
    var hd := s.handlers[h];
    assert Secured(p, s, hd) && OnTime(p, s, hd);
    assert forall k | k in s.handlers && Owns(s.handlers[k]) && s.handlers[k].task == hd.task :: k == h;
    ReserveFits(p, hd);
  }

  lemma ReserveFits(p: Params, h: Handler)
    requires Budget(p) && h.phase.Executing? && h.phase.missed <= p.misses
    ensures Interval(p) + p.delay + Reserve(p, h) + p.delay <= LeaseTime(p)
  {
    RoundsGrow(p, p.misses - h.phase.missed, p.misses);
  }

  lemma {:induction false} RoundsGrow(p: Params, m: nat, n: nat)
    requires m <= n
    ensures Rounds(p, m) <= Rounds(p, n)
    decreases n
  {
    if m < n {
      RoundsGrow(p, m, n - 1);
    }
  }

  /** A heartbeat, whichever of its two extensions fail. */
  lemma BeatKeeps(p: Params, s: State, step: Step)
    requires Budget(p) && Claims(p, s) && step.Beat? && Enabled(p, s, step)
    ensures Claims(p, Next(p, s, step))
  {
    hide Claims, MayEnter;
    var locked := s.(tasks := Locked(p, s, step));
    if step.locks {
      ExtendKeeps(p, s, step);
    } else {
      MissFits(p, s, step);
      assert locked == s;
    }
    PhaseKeeps(p, locked, step.h, Beaten(s, step));
    VisibilityKeeps(p, At(locked, step.h, Beaten(s, step)), s.handlers[step.h].msg);
  }

  lemma VisibilityKeeps(p: Params, s: State, m: MsgId)
    requires Claims(p, s)
    ensures m in s.messages ==>
      Claims(p, s.(messages := s.messages[m := Message(s.messages[m].task, s.now + LeaseTime(p))]))
  {
  }

  /** The result write, seen as giving up the claim and then writing the row. */
  lemma WriteKeeps(p: Params, s: State, h: HandlerId, status: Status)
    requires Claims(p, s) && In(s, h) && s.handlers[h].phase.Reporting? && s.handlers[h].task in s.tasks
    requires Terminal(status)
    ensures
      var hd := s.handlers[h];
      Claims(p, At(s, h, Deleting).(tasks := s.tasks[hd.task := Finished(s.tasks[hd.task], status, s.now)]))
  {
    var hd := s.handlers[h];
    PhaseKeeps(p, s, h, Deleting);
    RowKeeps(p, At(s, h, Deleting), hd.task, Finished(s.tasks[hd.task], status, s.now));
  }

  lemma ReportKeeps(p: Params, s: State, step: Step)
    requires Claims(p, s) && step.Report? && Enabled(p, s, step)
    ensures Claims(p, Next(p, s, step))
  {
    hide Claims;
    var Report(h, maxRetries, id, msg) := step;
    var hd := s.handlers[h];
    if hd.task !in s.tasks {
      EndKeeps(p, s, h);
    } else {
      var row := s.tasks[hd.task];
      var retry := hd.phase.outcome == Broke && row.retryCount < maxRetries;
      var status := if hd.phase.outcome == Succeeded then Success else if retry then Failed else FinalFailed;
      WriteKeeps(p, s, h, status);
      if retry {
        var written := At(s, h, Deleting).(tasks := s.tasks[hd.task := Finished(row, status, s.now)]);
        EnqueueKeeps(p, written, id, NewRow(row.job, row.trigger, row.retryCount + 1, s.now, row.origin), msg, RetryQueue);
      }
    }
  }

  /** The unconditional recovery write, while no other pass is about to write the same row. */
  lemma RecoverWriteKeeps(p: Params, s: State, a: PassId, t: TaskId)
    requires Claims(p, s) && Apart(s) && Enabled(p, s, RecoverWrite(a, t))
    ensures Claims(p, Next(p, s, RecoverWrite(a, t)))
  {
    if t in s.tasks {
      assert Left(s.passes, a, t);
      var taken := s.(passes := s.passes[a := Recovery(s.passes[a].readAt, s.passes[a].remaining - {t})]);
      FewerTargets(p, s, taken);
      assert forall b | Left(taken.passes, b, t) :: Left(s.passes, b, t);
      RowKeeps(p, taken, t, Released(s.tasks[t]));
    } else {
      FewerTargets(p, s, Next(p, s, RecoverWrite(a, t)));
    }
  }

  lemma FewerTargets(p: Params, s: State, s': State)
    requires Claims(p, s) && s' == s.(passes := s'.passes, lastRead := s'.lastRead) && s'.lastRead <= s'.now
    requires forall a | a in s'.passes :: a in s.passes && s'.passes[a].remaining <= s.passes[a].remaining && s'.passes[a].readAt == s.passes[a].readAt
    ensures Claims(p, s')
  {
    assert forall a, t | Left(s'.passes, a, t) :: Left(s.passes, a, t);
  }

  lemma LookupEndKeeps(p: Params, s: State, h: HandlerId)
    requires Budget(p) && Claims(p, s) && In(s, h) && s.handlers[h].phase.Lookup?
    ensures Claims(p, At(s, h, Executing(s.now, 0)))
    ensures Claims(p, At(s, h, Reporting(NoJob, s.now + p.delay)))
  {
    LookupFits(p, s, h);
    hide Claims, MayEnter;
    PhaseKeeps(p, s, h, Executing(s.now, 0));
    PhaseKeeps(p, s, h, Reporting(NoJob, s.now + p.delay));
  }

  /** The budget at work: what is left of the lease after a lookup covers all heartbeat rounds
      up to one that must extend. */
  lemma LookupFits(p: Params, s: State, h: HandlerId)
    requires Budget(p) && Claims(p, s) && In(s, h) && s.handlers[h].phase.Lookup?
    ensures MayEnter(p, s, h, Executing(s.now, 0)) && MayEnter(p, s, h, Reporting(NoJob, s.now + p.delay))
  {
    var hd := s.handlers[h];
    assert Secured(p, s, hd) && OnTime(p, s, hd);
    assert Rounds(p, p.misses + 1) == Interval(p) + p.delay + Rounds(p, p.misses);
  }

  lemma ExecEndFits(p: Params, s: State, h: HandlerId, outcome: Outcome)
    requires Claims(p, s) && In(s, h) && s.handlers[h].phase.Executing?
    ensures MayEnter(p, s, h, Reporting(outcome, Earlier(s.now + p.delay, Deadline(p, s.handlers[h]))))
  {
    assert Secured(p, s, s.handlers[h]) && OnTime(p, s, s.handlers[h]);
    hide Rounds;
  }

  lemma ExecEndsKeeps(p: Params, s: State, h: HandlerId, success: bool)
    requires Claims(p, s) && Enabled(p, s, ExecEnds(h, success))
    ensures Claims(p, Next(p, s, ExecEnds(h, success)))
  {
    hide Claims, MayEnter;
    var outcome := if success then Succeeded else Broke;
    ExecEndFits(p, s, h, outcome);
    PhaseKeeps(p, s, h, Reporting(outcome, Earlier(s.now + p.delay, Deadline(p, s.handlers[h]))));
  }

  /** Every step keeps the invariant, if passes are apart when one of them writes. */
  lemma StepKeeps(p: Params, s: State, step: Step)
    requires Budget(p) && Claims(p, s) && Enabled(p, s, step) && (step.RecoverWrite? ==> Apart(s))
    ensures Claims(p, Next(p, s, step))
  {
    hide Claims, Apart;
    match step
    case Create(job, trigger, id, msg) =>
      EnqueueKeeps(p, s, id, NewRow(job, trigger, 0, s.now, Origin(id, 0)), msg,
                   if trigger == Scheduled then ScheduledQueue else NormalQueue);
    case ManualRetry(failed, id, msg) =>
      var row := s.tasks[failed];
      EnqueueKeeps(p, s, id, NewRow(row.job, row.trigger, row.retryCount + 1, s.now, Origin(id, row.retryCount + 1)), msg, RetryQueue);
    case Receive(_, _, _) => ReceiveKeeps(p, s, step);
    case Claim(h, stamp) => ClaimKeeps(p, s, h, stamp);
    case Miss(h) => PhaseKeeps(p, s, h, Rereading(s.handlers[h].phase.attempt));
    case Reread(h) =>
      PhaseKeeps(p, s, h, Lost);
      PhaseKeeps(p, s, h, Claiming(s.handlers[h].phase.attempt + 1));
    case Decide(h) =>
      PhaseKeeps(p, s, h, Deleting);
      EndKeeps(p, s, h);
    case JobFound(h) => LookupEndKeeps(p, s, h);
    case JobMissing(h) => LookupEndKeeps(p, s, h);
    case Beat(_, _, _, _) => BeatKeeps(p, s, step);
    case ExecEnds(h, success) => ExecEndsKeeps(p, s, h, success);
    case Report(_, _, _, _) => ReportKeeps(p, s, step);
    case Delete(h) => DeleteKeeps(p, s, h);
    case Crash(h) => EndKeeps(p, s, h);
    case RecoverRead(a) => RecoverReadKeeps(p, s, a);
    case RecoverWrite(a, t) => RecoverWriteKeeps(p, s, a, t);
    case RecoverDone(_) => RecoverEndKeeps(p, s, step);
    case RecoverAbort(_) => RecoverEndKeeps(p, s, step);
    case MarkProcessed(t) => MarkKeeps(p, s, t);
    case RemoveJob(_) => RemoveKeeps(p, s, step);
    case Tick(_) => TickKeeps(p, s, step);
  }

  lemma ReceiveKeeps(p: Params, s: State, step: Step)
    requires Claims(p, s) && step.Receive? && Enabled(p, s, step)
    ensures Claims(p, Next(p, s, step))
  {
  }

  lemma DeleteKeeps(p: Params, s: State, h: HandlerId)
    requires Claims(p, s) && Enabled(p, s, Delete(h))
    ensures Claims(p, Next(p, s, Delete(h)))
  {
  }

  lemma MarkKeeps(p: Params, s: State, t: TaskId)
    requires Claims(p, s) && Enabled(p, s, MarkProcessed(t))
    ensures Claims(p, Next(p, s, MarkProcessed(t)))
  {
    RowKeeps(p, s, t, Chained(s.tasks[t]));
  }

  lemma RemoveKeeps(p: Params, s: State, step: Step)
    requires Claims(p, s) && step.RemoveJob? && Enabled(p, s, step)
    ensures Claims(p, Next(p, s, step))
  {
  }

  /** An expired lock has no live holder: its handler would have missed its deadline. */
  lemma RecoverReadKeeps(p: Params, s: State, a: PassId)
    requires Claims(p, s) && Enabled(p, s, RecoverRead(a))
    ensures Claims(p, Next(p, s, RecoverRead(a)))
  {
    var s' := Next(p, s, RecoverRead(a));
    forall b, t | Left(s'.passes, b, t) && t in s'.tasks
      ensures s'.tasks[t].status == Running && Unowned(s', t)
    {
      if b != a {
        assert Left(s.passes, b, t);
      } else {
        ExpiredIsUnowned(p, s, t);
      }
    }
  }

  lemma ExpiredIsUnowned(p: Params, s: State, t: TaskId)
    requires Ownership(p, s) && t in s.tasks && Expired(s.tasks[t], s.now)
    ensures Unowned(s, t)
  {
    forall h | h in s.handlers && Owns(s.handlers[h])
      ensures s.handlers[h].task != t
    {
      assert Secured(p, s, s.handlers[h]) && OnTime(p, s, s.handlers[h]);
    }
  }

  lemma RecoverEndKeeps(p: Params, s: State, step: Step)
    requires Claims(p, s) && Enabled(p, s, step) && (step.RecoverDone? || step.RecoverAbort?)
    ensures Claims(p, Next(p, s, step))
  {
    FewerTargets(p, s, Next(p, s, step));
  }

  lemma TickKeeps(p: Params, s: State, step: Step)
    requires Claims(p, s) && Enabled(p, s, step) && step.Tick?
    ensures Claims(p, Next(p, s, step))
  {
  }
}
