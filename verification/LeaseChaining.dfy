/** The lease protocol, seen through the task table, takes the task steps of the chaining
    model: so what is proved of those runs holds of tasks run by real workers. */
module LeaseChaining {
  import opened Tasks
  import opened Lease
  import opened LeaseSafety
  import opened LeaseTheorems
  import Chaining

  ghost function Table(s: State, triggers: seq<Chaining.Firing>): Chaining.State {
    Chaining.State(s.now, s.tasks, triggers)
  }

  /** The chaining step that a lease step looks like. */
  ghost function Seen(p: Params, s: State, step: Step): Chaining.Step
    requires Enabled(p, s, step)
  {
    var s' := Next(p, s, step);
    if step.Tick? then Chaining.Tick(step.dt)
    else if step.Create? || step.ManualRetry? then Chaining.Add(step.id, s'.tasks[step.id])
    else if step.Report? && step.id in s'.tasks && s.handlers[step.h].task in s'.tasks then
      Chaining.Retry(s.handlers[step.h].task, s'.tasks[s.handlers[step.h].task], step.id, s'.tasks[step.id])
    else if (step.Claim? || step.Beat? || step.Report?) && s.handlers[step.h].task in s.tasks then
      Chaining.Change(s.handlers[step.h].task, s'.tasks[s.handlers[step.h].task])
    else if step.RecoverWrite? && step.task in s.tasks then Chaining.Change(step.task, s'.tasks[step.task])
    else Chaining.Tick(0)
  }

  lemma LeaseStepIsTaskStep(p: Params, s: State, step: Step, triggers: seq<Chaining.Firing>)
    requires Claims(p, s) && Enabled(p, s, step) && !step.MarkProcessed? && !step.RemoveJob?
    ensures Chaining.Follows(Table(s, triggers), Seen(p, s, step), Table(Next(p, s, step), triggers))
  {
    StepWritesOwn(p, s, step);
    assert RowsConsistent(s);
    hide Claims, Unowned;
    if step.Report? {
      ReportIsTaskStep(p, s, step, triggers);
    } else if step.Create? || step.ManualRetry? {
      NewIsTaskStep(p, s, step, triggers);
    } else {
      OwnWriteIsTaskStep(p, s, step, triggers);
    }
  }

  lemma ReportIsTaskStep(p: Params, s: State, step: Step, triggers: seq<Chaining.Firing>)
    requires WritesOwn(s, step) && RowsConsistent(s) && Enabled(p, s, step) && step.Report?
    ensures Chaining.Follows(Table(s, triggers), Seen(p, s, step), Table(Next(p, s, step), triggers))
  {
    hide Unowned;
  }

  lemma NewIsTaskStep(p: Params, s: State, step: Step, triggers: seq<Chaining.Firing>)
    requires WritesOwn(s, step) && Enabled(p, s, step) && (step.Create? || step.ManualRetry?)
    ensures Chaining.Follows(Table(s, triggers), Seen(p, s, step), Table(Next(p, s, step), triggers))
  {
  }

  lemma OwnWriteIsTaskStep(p: Params, s: State, step: Step, triggers: seq<Chaining.Firing>)
    requires WritesOwn(s, step) && RowsConsistent(s) && Enabled(p, s, step)
    requires !step.MarkProcessed? && !step.RemoveJob? && !step.Report? && !step.Create? && !step.ManualRetry?
    ensures Chaining.Follows(Table(s, triggers), Seen(p, s, step), Table(Next(p, s, step), triggers))
  {
    hide Unowned;
  }

  // ---- Whole runs of workers, passes and job removals ----

  /** A stretch of a lease run: one step of its own, or the steps of one dependency pass. */
  datatype Leg = Single | Dependents(pass: Chaining.Step)

  /** The triggers of the jobs that remain. */
  ghost function Others(triggers: seq<Chaining.Firing>, job: JobId): seq<Chaining.Firing> {
    if triggers == [] then []
    else
      var rest, last := Others(triggers[..|triggers| - 1], job), triggers[|triggers| - 1];
      if last.job == job then rest else rest + [last]
  }

  /** Steps `a` to `b` are one leg. A pass marks rows and creates dependency tasks, and nothing
      else happens meanwhile; a removed job takes its triggers with it. */
  ghost predicate LegOf(states: seq<State>, steps: seq<Step>, a: nat, b: nat, leg: Leg,
                        triggers: seq<Chaining.Firing>, triggers': seq<Chaining.Firing>)
    requires |states| == |steps| + 1
  {
    && a <= b <= |steps|
    && match leg
       case Single =>
         && b == a + 1 && !steps[a].MarkProcessed?
         && triggers' == if steps[a].RemoveJob? then Others(triggers, steps[a].job) else triggers
       case Dependents(pass) =>
         && pass.Pass?
         && (forall i | a <= i < b :: steps[i].MarkProcessed? || (steps[i].Create? && steps[i].trigger == Dependency))
         && Chaining.Passes(Table(states[a], triggers), pass, Table(states[b], triggers'))
  }

  /** The run is a sequence of legs with cut points `cuts`; `triggers[i]` are those before leg `i`. */
  ghost predicate Interleaves(states: seq<State>, steps: seq<Step>, cuts: seq<nat>, legs: seq<Leg>, triggers: seq<seq<Chaining.Firing>>)
    requires |states| == |steps| + 1
  {
    && |cuts| == |triggers| == |legs| + 1
    && cuts[0] == 0 && triggers[0] == []
    && forall i {:trigger legs[i]} | 0 <= i < |legs| :: LegOf(states, steps, cuts[i], cuts[i + 1], legs[i], triggers[i], triggers[i + 1])
  }

  /** Where each trigger of the filtered list came from. */
  lemma {:induction false} OthersKeep(triggers: seq<Chaining.Firing>, job: JobId)
    ensures forall f | f in Others(triggers, job) :: f in triggers && f.job != job
    ensures Chaining.NewGenerations(triggers) ==> Chaining.NewGenerations(Others(triggers, job))
  {
    if triggers != [] {
      var rest, last := triggers[..|triggers| - 1], triggers[|triggers| - 1];
      OthersKeep(rest, job);
      var kept := Others(rest, job);
      forall i | 0 <= i < |kept| && kept[i].job == last.job && Chaining.NewGenerations(triggers)
        ensures kept[i].readyAt < last.readyAt
      {
        assert kept[i] in rest;
        var k :| 0 <= k < |rest| && rest[k] == kept[i];
        assert triggers[k] == kept[i];
      }
    }
  }

  ghost predicate Guarded(s: State, triggers: seq<Chaining.Firing>) {
    var table := Table(s, triggers);
    Chaining.Timely(table) && Chaining.Recorded(table) && Chaining.NewGenerations(triggers)
  }

  lemma RemovalKeepsGuard(p: Params, s: State, step: Step, triggers: seq<Chaining.Firing>)
    requires Guarded(s, triggers) && step.RemoveJob? && Enabled(p, s, step)
    ensures Guarded(Next(p, s, step), Others(triggers, step.job))
  {
    OthersKeep(triggers, step.job);
  }

  lemma SingleKeepsGuard(p: Params, s: State, step: Step, triggers: seq<Chaining.Firing>)
    requires Guarded(s, triggers) && Claims(p, s) && Enabled(p, s, step) && !step.MarkProcessed? && !step.RemoveJob?
    ensures Guarded(Next(p, s, step), triggers)
  {
    hide Claims, Next, Enabled, Chaining.Timely, Chaining.Recorded, Chaining.Follows;
    LeaseStepIsTaskStep(p, s, step, triggers);
    Chaining.StepKeepsRows(Table(s, triggers), Seen(p, s, step), Table(Next(p, s, step), triggers));
  }

  lemma PassKeepsGuard(s: State, pass: Chaining.Step, s': State, triggers: seq<Chaining.Firing>, triggers': seq<Chaining.Firing>)
    requires Guarded(s, triggers) && pass.Pass? && Chaining.Passes(Table(s, triggers), pass, Table(s', triggers'))
    ensures Guarded(s', triggers')
  {
    hide Chaining.Timely, Chaining.Recorded, Chaining.Passes, Chaining.NewGenerations;
    Chaining.PassKeepsRows(Table(s, triggers), pass, Table(s', triggers'));
    Chaining.PassKeepsGenerations(Table(s, triggers), pass, Table(s', triggers'));
  }

  /** However the steps of real workers, crashes, recoveries, retries and job removals
      interleave with dependency passes, the ready times at which a remaining job was
      triggered strictly increase. */
  lemma {:induction false} GuardHoldsOfWorkers(p: Params, states: seq<State>, steps: seq<Step>, cuts: seq<nat>, legs: seq<Leg>,
                                               triggers: seq<seq<Chaining.Firing>>, i: nat)
    requires Budget(p) && Run(p, states, steps) && FencedTo(states, |states|)
    requires Interleaves(states, steps, cuts, legs, triggers) && i <= |legs|
    ensures cuts[i] < |states| && Guarded(states[cuts[i]], triggers[i])
  {
    if i > 0 {
      hide Claims, Next, Enabled, Guarded, Apart, Chaining.Passes;
      GuardHoldsOfWorkers(p, states, steps, cuts, legs, triggers, i - 1);
      var a, b := cuts[i - 1], cuts[i];
      assert LegOf(states, steps, a, b, legs[i - 1], triggers[i - 1], triggers[i]);
      if legs[i - 1].Single? {
        RunsKeepInvariants(p, states, steps, a);
        assert Follows(p, states[a], steps[a], states[b]);
        if steps[a].RemoveJob? {
          RemovalKeepsGuard(p, states[a], steps[a], triggers[i - 1]);
        } else {
          SingleKeepsGuard(p, states[a], steps[a], triggers[i - 1]);
        }
      } else {
        PassKeepsGuard(states[a], legs[i - 1].pass, states[b], triggers[i - 1], triggers[i]);
      }
    }
  }
}
