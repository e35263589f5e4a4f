/** How soon a crashed worker's task can run again. */
module LeaseRecovery {
  import opened Tasks
  import opened Lease
  import opened LeaseSafety
  import opened LeaseMail
  import opened LeaseTheorems

  /** No state is more than `period` after the read of the last completed recovery pass. */
  ghost predicate RecoveryEvery(states: seq<State>, period: nat) {
    forall i | 0 <= i < |states| :: states[i].now <= states[i].lastRead + period
  }

  ghost predicate Held(s: State, t: TaskId) {
    !Unowned(s, t)
  }

  /** By the deadline the task is back: gone, settled, held again, or pending with a visible
      message. */
  ghost predicate Back(s: State, t: TaskId, deadline: int) {
    && s.now <= deadline
    && (|| t !in s.tasks
        || Terminal(s.tasks[t].status)
        || Held(s, t)
        || (s.tasks[t].status == Pending && exists m :: m in s.messages && s.messages[m].task == t && s.messages[m].visibleAt <= s.now))
  }

  /** The task is pending while time passes the moment, not after the deadline, at which its
      message becomes visible. */
  ghost predicate Surfaces(s: State, step: Step, t: TaskId, deadline: int) {
    && step.Tick? && t in s.tasks && s.tasks[t].status == Pending
    && exists m :: m in s.messages && s.messages[m].task == t && s.now < s.messages[m].visibleAt <= Earlier(s.now + step.dt, deadline)
  }

  /** Not back yet: an orphan whose lock runs out and that recovery has not missed, or a
      pending row whose message becomes visible in time. */
  ghost predicate Waiting(s: State, t: TaskId, lock: int, deadline: int) {
    && t in s.tasks && t in s.home
    && Unowned(s, t)
    && if s.tasks[t].status == Running then
         && s.tasks[t].lockedUntil == Some(lock)
         && s.lastRead <= lock
         && (forall a | a in s.passes && s.passes[a].readAt > lock :: Left(s.passes, a, t))
       else
         && s.tasks[t].status == Pending
         && s.home[t] in s.messages
         && s.now < s.messages[s.home[t]].visibleAt <= deadline
  }

  /** What the invariants say about a waiting task. */
  ghost predicate Tracked(p: Params, s: State, t: TaskId)
    requires t in s.tasks
  {
    && t in s.home
    && (!Terminal(s.tasks[t].status) ==>
          && s.home[t] in s.messages
          && s.messages[s.home[t]].task == t
          && s.messages[s.home[t]].visibleAt <= s.now + LeaseTime(p))
    && (forall h | h in s.handlers && s.handlers[h].msg == s.home[t] :: s.handlers[h].task == t)
    && (forall h | h in s.handlers && s.handlers[h].task == t && s.handlers[h].phase.Deleting? :: Terminal(s.tasks[t].status))
    && (forall a | Left(s.passes, a, t) :: s.tasks[t].status == Running)
    && s.home[t] in s.sent
  }

  lemma AllTracked(p: Params, s: State, t: TaskId)
    requires Claims(p, s) && Mail(s) && t in s.tasks
    ensures Tracked(p, s, t)
  {
  }

  ghost predicate Recovers(step: Step) {
    step.RecoverRead? || step.RecoverWrite? || step.RecoverDone? || step.RecoverAbort?
  }

  /** A step that is not part of recovery leaves an orphan alone, or removes it. */
  lemma OrphanStays(p: Params, s: State, step: Step, t: TaskId, lock: int, deadline: int)
    requires t in s.tasks && Tracked(p, s, t) && Enabled(p, s, step) && !Recovers(step)
    requires Waiting(s, t, lock, deadline) && s.tasks[t].status == Running && s.now <= deadline
    ensures Waiting(Next(p, s, step), t, lock, deadline) || Back(Next(p, s, step), t, deadline)
  {
    assert !step.Tick? ==> Next(p, s, step).now == s.now;
  }

  /** A step of recovery cannot miss it, and its write makes it pending in time. */
  lemma OrphanRecovers(p: Params, s: State, step: Step, t: TaskId, lock: int, period: nat)
    requires t in s.tasks && Tracked(p, s, t) && Enabled(p, s, step) && Recovers(step)
    requires Waiting(s, t, lock, lock + period + LeaseTime(p)) && s.tasks[t].status == Running
    requires s.now <= s.lastRead + period
    ensures
      var s' := Next(p, s, step);
      Waiting(s', t, lock, lock + period + LeaseTime(p)) || Back(s', t, lock + period + LeaseTime(p))
  {
    var s' := Next(p, s, step);
    if step.RecoverWrite? && step.task == t {
      assert s'.messages[s.home[t]].task == t;
    }
  }

  lemma OrphanStep(p: Params, s: State, step: Step, t: TaskId, lock: int, period: nat)
    requires t in s.tasks && Tracked(p, s, t) && Enabled(p, s, step)
    requires Waiting(s, t, lock, lock + period + LeaseTime(p)) && s.tasks[t].status == Running
    requires s.now <= s.lastRead + period
    ensures
      var s' := Next(p, s, step);
      Waiting(s', t, lock, lock + period + LeaseTime(p)) || Back(s', t, lock + period + LeaseTime(p))
  {
    assert s.lastRead <= lock;
    hide Next, Enabled, Waiting, Back, Tracked;
    if Recovers(step) {
      OrphanRecovers(p, s, step, t, lock, period);
    } else {
      OrphanStays(p, s, step, t, lock, lock + period + LeaseTime(p));
    }
  }

  /** Before its message is visible, only the removal of its job or a claim changes a pending task. */
  lemma PendingStays(p: Params, s: State, step: Step, t: TaskId, lock: int, deadline: int)
    requires t in s.tasks && Tracked(p, s, t) && Enabled(p, s, step) && !step.Tick? && !step.Claim?
    requires Waiting(s, t, lock, deadline) && s.tasks[t].status == Pending
    ensures Waiting(Next(p, s, step), t, lock, deadline) || Back(Next(p, s, step), t, deadline)
  {
    assert step.RecoverWrite? ==> Left(s.passes, step.pass, step.task);
  }

  lemma PendingStep(p: Params, s: State, step: Step, t: TaskId, lock: int, deadline: int)
    requires t in s.tasks && Tracked(p, s, t) && Enabled(p, s, step)
    requires Waiting(s, t, lock, deadline) && s.tasks[t].status == Pending
    ensures Waiting(Next(p, s, step), t, lock, deadline) || Back(Next(p, s, step), t, deadline) || Surfaces(s, step, t, deadline)
  {
    var s' := Next(p, s, step);
    if step.Claim? {
      if s.handlers[step.h].task == t {
        assert s'.handlers[step.h].task == t && Owns(s'.handlers[step.h]);
      }
    } else if step.Tick? {
      assert s.messages[s.home[t]].task == t;
    } else {
      PendingStays(p, s, step, t, lock, deadline);
    }
  }

  /** Between states `k` and `n` the task came back in time. */
  ghost predicate BackWithin(states: seq<State>, steps: seq<Step>, k: nat, n: nat, t: TaskId, deadline: int)
    requires n < |states| <= |steps| + 1
  {
    || (exists i :: k <= i <= n && Back(states[i], t, deadline))
    || (exists i :: k <= i < n && Surfaces(states[i], steps[i], t, deadline))
  }

  /** Until it is back, a crashed worker's task stays on its way back. */
  lemma {:induction false} WaitingOrBack(p: Params, states: seq<State>, steps: seq<Step>, k: nat, n: nat, t: TaskId, lock: int, period: nat)
    requires Budget(p) && Run(p, states, steps) && FencedTo(states, |states|) && RecoveryEvery(states, period)
    requires k <= n < |states| && Waiting(states[k], t, lock, lock + period + LeaseTime(p))
    ensures
      || Waiting(states[n], t, lock, lock + period + LeaseTime(p))
      || BackWithin(states, steps, k, n, t, lock + period + LeaseTime(p))
  {
    hide Back, Surfaces, Waiting, Claims, Mail, Next, Enabled, Apart;
    if k < n {
      var deadline := lock + period + LeaseTime(p);
      WaitingOrBack(p, states, steps, k, n - 1, t, lock, period);
      if !BackWithin(states, steps, k, n - 1, t, deadline) {
        RunsKeepInvariants(p, states, steps, n - 1);
        assert Follows(p, states[n - 1], steps[n - 1], states[n]);
        assert states[n - 1].now <= states[n - 1].lastRead + period;
        WaitingStep(p, states[n - 1], steps[n - 1], t, lock, period);
      }
    }
  }

  lemma WaitingStep(p: Params, s: State, step: Step, t: TaskId, lock: int, period: nat)
    requires Claims(p, s) && Mail(s) && Enabled(p, s, step)
    requires Waiting(s, t, lock, lock + period + LeaseTime(p)) && s.now <= s.lastRead + period
    ensures
      var s' := Next(p, s, step);
      s'.now <= s'.lastRead + period ==>
        || Waiting(s', t, lock, lock + period + LeaseTime(p))
        || Back(s', t, lock + period + LeaseTime(p))
        || Surfaces(s, step, t, lock + period + LeaseTime(p))
  {
    hide Claims, Mail, Back, Surfaces, Tracked, Next, Enabled, Unowned;
    AllTracked(p, s, t);
    if s.tasks[t].status == Running {
      OrphanStep(p, s, step, t, lock, period);
    } else {
      PendingStep(p, s, step, t, lock, lock + period + LeaseTime(p));
    }
  }

  lemma WaitingIsEarly(p: Params, s: State, t: TaskId, lock: int, period: nat)
    requires Budget(p) && Waiting(s, t, lock, lock + period + LeaseTime(p)) && s.now <= s.lastRead + period
    ensures s.now < lock + period + LeaseTime(p)
  {
  }

  /** A crash leaves an orphan that recovery has not missed. */
  lemma CrashOrphans(p: Params, s: State, h: HandlerId)
    requires Claims(p, s) && In(s, h) && Owns(s.handlers[h]) && s.handlers[h].task in s.tasks
    ensures
      var t := s.handlers[h].task;
      var lock := s.tasks[t].lockedUntil;
      lock.Some? && s.now <= lock.value <= s.now + LeaseTime(p)
      && forall deadline :: Waiting(Next(p, s, Crash(h)), t, lock.value, deadline)
  {
    var t := s.handlers[h].task;
    assert Unowned(Next(p, s, Crash(h)), t);
  }

  /** After a crash at time x, with a recovery pass completed at least every `period`, the
      task is back by x + 2 * claim_seconds + period. */
  lemma CrashRecoveryBound(p: Params, states: seq<State>, steps: seq<Step>, k: nat, n: nat, period: nat)
    requires Budget(p) && Run(p, states, steps) && FencedTo(states, |states|) && RecoveryEvery(states, period)
    requires k < n < |states| && steps[k].Crash? && In(states[k], steps[k].h)
    requires Owns(states[k].handlers[steps[k].h]) && states[k].handlers[steps[k].h].task in states[k].tasks
    requires states[n].now >= states[k].now + 2 * LeaseTime(p) + period
    ensures BackWithin(states, steps, k + 1, n, states[k].handlers[steps[k].h].task, states[k].now + 2 * LeaseTime(p) + period)
  {
    var t, deadline := states[k].handlers[steps[k].h].task, states[k].now + 2 * LeaseTime(p) + period;
    RunsKeepInvariants(p, states, steps, k);
    CrashOrphans(p, states[k], steps[k].h);
    assert Follows(p, states[k], steps[k], states[k + 1]);
    var lock := states[k].tasks[t].lockedUntil.value;
    assert Waiting(states[k + 1], t, lock, lock + period + LeaseTime(p));
    hide Claims, Mail, Back, Surfaces, Waiting, Next, Enabled, Run, Apart;
    WaitingOrBack(p, states, steps, k + 1, n, t, lock, period);
    if Waiting(states[n], t, lock, lock + period + LeaseTime(p)) {
      WaitingIsEarly(p, states[n], t, lock, period);
    }
    BackEarlier(states, steps, k + 1, n, t, lock + period + LeaseTime(p), deadline);
  }

  lemma BackEarlier(states: seq<State>, steps: seq<Step>, k: nat, n: nat, t: TaskId, early: int, late: int)
    requires n < |states| <= |steps| + 1 && early <= late && BackWithin(states, steps, k, n, t, early)
    ensures BackWithin(states, steps, k, n, t, late)
  {
    if i :| k <= i <= n && Back(states[i], t, early) {
      assert Back(states[i], t, late);
    } else {
      var i :| k <= i < n && Surfaces(states[i], steps[i], t, early);
      assert Surfaces(states[i], steps[i], t, late);
    }
  }
}
