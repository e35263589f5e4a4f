/** Where recorded results come from: over every run, whatever the timing and however recovery
    passes overlap, a row's result is what its execution said. */
module LeaseResults {
  import opened Tasks
  import opened Lease
  import opened LeaseMail
  import opened LeaseTheorems
  import opened Worker

  /** Step `j` ended the work of handler `h` on `t`, and `h` waited to report from then until
      state `k`. */
  ghost predicate Waits(states: seq<State>, steps: seq<Step>, j: nat, k: nat, h: HandlerId)
    requires |states| == |steps| + 1
  {
    && j < k <= |steps| && (steps[j].ExecEnds? || steps[j].JobMissing?) && steps[j].h == h
    && h in states[k].handlers && states[k].handlers[h].phase.Reporting?
    && (forall m | j < m <= k :: h in states[m].handlers && states[m].handlers[h] == states[k].handlers[h])
  }

  /** The outcome that the handler carries is the one that its work ended with. */
  ghost predicate Carries(step: Step, outcome: Outcome) {
    && (outcome == NoJob <==> step.JobMissing?)
    && (outcome == Succeeded <==> step.ExecEnds? && step.success)
    && (outcome == Broke <==> step.ExecEnds? && !step.success)
  }

  ghost predicate EndedAt(states: seq<State>, steps: seq<Step>, j: nat, k: nat, h: HandlerId)
    requires |states| == |steps| + 1
  {
    Waits(states, steps, j, k, h) && Carries(steps[j], states[k].handlers[h].phase.outcome)
  }

  ghost predicate Arrives(step: Step) {
    step.Receive? || step.Claim? || step.Miss? || step.Reread? || step.Decide? || step.JobFound?
  }

  ghost predicate Works(step: Step) {
    step.JobMissing? || step.Beat? || step.ExecEnds? || step.Report? || step.Delete? || step.Crash?
  }

  ghost predicate Moves(step: Step) {
    Arrives(step) || Works(step)
  }

  lemma QuietMovesNone(p: Params, s: State, step: Step)
    requires Enabled(p, s, step) && !Moves(step)
    ensures Next(p, s, step).handlers == s.handlers
  {
  }

  lemma ArrivalMovesOwn(p: Params, s: State, step: Step, h: HandlerId)
    requires Enabled(p, s, step) && Arrives(step)
    ensures h != step.h ==> (h in Next(p, s, step).handlers <==> h in s.handlers)
    ensures h != step.h && h in s.handlers ==> Next(p, s, step).handlers[h] == s.handlers[h]
    ensures step.h in Next(p, s, step).handlers ==> !Next(p, s, step).handlers[step.h].phase.Reporting?
  {
    hide Deadline, LeaseTime;
  }

  lemma WorkMovesOwn(p: Params, s: State, step: Step, h: HandlerId)
    requires Enabled(p, s, step) && Works(step)
    ensures h != step.h ==> (h in Next(p, s, step).handlers <==> h in s.handlers)
    ensures h != step.h && h in s.handlers ==> Next(p, s, step).handlers[h] == s.handlers[h]
    ensures step.h in Next(p, s, step).handlers && Next(p, s, step).handlers[step.h].phase.Reporting? ==>
      (step.JobMissing? || step.ExecEnds?) && Carries(step, Next(p, s, step).handlers[step.h].phase.outcome)
  {
    hide Deadline, LeaseTime;
  }

  lemma StepKeepsWaiting(p: Params, s: State, step: Step, h: HandlerId)
    requires Enabled(p, s, step) && h in Next(p, s, step).handlers && Next(p, s, step).handlers[h].phase.Reporting?
    ensures
      || (h in s.handlers && s.handlers[h] == Next(p, s, step).handlers[h])
      || ((step.ExecEnds? || step.JobMissing?) && step.h == h && Carries(step, Next(p, s, step).handlers[h].phase.outcome))
  {
    hide Next, Enabled, Carries;
    if Arrives(step) {
      ArrivalMovesOwn(p, s, step, h);
    } else if Works(step) {
      WorkMovesOwn(p, s, step, h);
    } else {
      QuietMovesNone(p, s, step);
    }
  }

  lemma {:induction false} OutcomesAreObserved(p: Params, states: seq<State>, steps: seq<Step>, k: nat, h: HandlerId)
    requires Run(p, states, steps) && k < |states| && h in states[k].handlers && states[k].handlers[h].phase.Reporting?
    ensures exists j: nat :: EndedAt(states, steps, j, k, h)
  {
    if k > 0 {
      hide Next, Enabled, Carries;
      var i := k - 1;
      assert Follows(p, states[i], steps[i], states[k]);
      StepKeepsWaiting(p, states[i], steps[i], h);
      if h in states[i].handlers && states[i].handlers[h] == states[k].handlers[h] {
        OutcomesAreObserved(p, states, steps, i, h);
        var j: nat :| EndedAt(states, steps, j, i, h);
        assert EndedAt(states, steps, j, k, h);
      } else {
        assert EndedAt(states, steps, i, k, h);
      }
    }
  }

  /** Step `k` is the report that gave `t` the row it has right after, and step `j` is where the
      reporting handler's work on `t` ended. */
  ghost predicate EarnedAt(states: seq<State>, steps: seq<Step>, j: nat, k: nat, t: TaskId)
    requires |states| == |steps| + 1
  {
    && k < |steps| && steps[k].Report? && EndedAt(states, steps, j, k, steps[k].h)
    && states[k].handlers[steps[k].h].task == t && t in states[k].tasks && t in states[k + 1].tasks
    && var before, status := states[k].tasks[t], states[k + 1].tasks[t].status;
    && (status == Success <==> steps[j].ExecEnds? && steps[j].success)
    && (status == Failed <==> steps[j].ExecEnds? && !steps[j].success && before.retryCount < steps[k].maxRetries)
    && (status == FinalFailed <==> steps[j].JobMissing? || (steps[j].ExecEnds? && !steps[j].success && before.retryCount >= steps[k].maxRetries))
  }

  ghost predicate Earned(states: seq<State>, steps: seq<Step>, i: nat, t: TaskId)
    requires |states| == |steps| + 1
  {
    exists j: nat, k: nat :: EarnedAt(states, steps, j, k, t) && k < i < |states| && t in states[i].tasks && states[i].tasks[t].status == states[k + 1].tasks[t].status
  }

  /** Only a report of a handler of `t` can settle it. */
  lemma StepSettles(p: Params, s: State, step: Step, t: TaskId)
    requires Enabled(p, s, step) && s.tasks.Keys <= s.home.Keys
    requires t in Next(p, s, step).tasks && Terminal(Next(p, s, step).tasks[t].status)
    ensures t in s.tasks
    ensures
      || s.tasks[t].status == Next(p, s, step).tasks[t].status
      || (step.Report? && s.handlers[step.h].task == t && Settles(s.tasks[t], Next(p, s, step).tasks[t], s.handlers[step.h].phase.outcome, step.maxRetries, s.now))
  {
    if step.Report? && s.handlers[step.h].task in s.tasks {
      ReportStepIsTheWorkers(p, s, step);
    }
  }

  lemma TasksAreKnown(p: Params, states: seq<State>, steps: seq<Step>, i: nat)
    requires Run(p, states, steps) && i < |states|
    ensures states[i].tasks.Keys <= states[i].home.Keys
  {
    RunsStayRouted(p, states, steps, i);
  }

  /** In every run a settled row was settled by a report: success exactly of an execution that
      succeeded, failed exactly of one that broke with retries left, final_failed exactly of one
      that broke without, or of a missing job. */
  lemma {:induction false} ResultsAreEarned(p: Params, states: seq<State>, steps: seq<Step>, i: nat, t: TaskId)
    requires Run(p, states, steps) && i < |states| && t in states[i].tasks && Terminal(states[i].tasks[t].status)
    ensures Earned(states, steps, i, t)
  {
    if i > 0 {
      hide Next, Enabled, EarnedAt, Settles, EndedAt, Waits, Carries;
      var b := i - 1;
      assert Follows(p, states[b], steps[b], states[i]);
      TasksAreKnown(p, states, steps, b);
      StepSettles(p, states[b], steps[b], t);
      if states[b].tasks[t].status == states[i].tasks[t].status {
        ResultsAreEarned(p, states, steps, b, t);
        var j: nat, k: nat :| EarnedAt(states, steps, j, k, t) && k < b && states[b].tasks[t].status == states[k + 1].tasks[t].status;
        assert EarnedAt(states, steps, j, k, t) && k < i;
      } else {
        ReportEarns(p, states, steps, b, t);
      }
    }
  }

  lemma ReportEarns(p: Params, states: seq<State>, steps: seq<Step>, b: nat, t: TaskId)
    requires Run(p, states, steps) && b < |steps| && steps[b].Report? && Follows(p, states[b], steps[b], states[b + 1])
    requires steps[b].h in states[b].handlers && states[b].handlers[steps[b].h].phase.Reporting? && states[b].handlers[steps[b].h].task == t
    requires t in states[b].tasks && t in states[b + 1].tasks
    requires Settles(states[b].tasks[t], states[b + 1].tasks[t], states[b].handlers[steps[b].h].phase.outcome, steps[b].maxRetries, states[b].now)
    ensures Earned(states, steps, b + 1, t)
  {
    assert |states| == |steps| + 1;
    hide Next, Enabled, Waits;
    OutcomesAreObserved(p, states, steps, b, steps[b].h);
    var j: nat :| EndedAt(states, steps, j, b, steps[b].h);
    assert EarnedAt(states, steps, j, b, t);
  }
}
