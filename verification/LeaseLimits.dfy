/** How far the lease protocol's guarantees reach: the timing budget and the fencing of
    recovery passes are not only enough but exactly what they need. */
module LeaseLimits {
  import opened Tasks
  import opened Lease
  import opened LeaseSafety
  import opened LeaseMail
  import opened LeaseTheorems

  // ---- The guarantees ----

  /** No task is ever held by two live handlers. */
  ghost predicate Safe(p: Params) {
    forall states: seq<State>, steps: seq<Step>, i: nat :: Run(p, states, steps) && i < |states| ==> Exclusive(states[i])
  }

  /** The recovery write of step `i`, if it is one, hits a running row without a live holder. */
  ghost predicate WritesDead(s: State, step: Step) {
    step.RecoverWrite? && step.task in s.tasks ==> s.tasks[step.task].status == Running && Unowned(s, step.task)
  }

  ghost predicate RecoversOnlyDead(p: Params) {
    forall states: seq<State>, steps: seq<Step>, i: nat :: Run(p, states, steps) && i < |steps| ==> WritesDead(states[i], steps[i])
  }

  /** A result, once written, is never changed or undone. */
  ghost predicate KeepsResults(p: Params) {
    forall states: seq<State>, steps: seq<Step>, i: nat, j: nat, t: TaskId ::
      Run(p, states, steps) && i <= j < |states| ==> ResultStays(states[i], states[j], t)
  }

  ghost predicate ResultStays(s: State, s': State, t: TaskId) {
    t in s.tasks && Terminal(s.tasks[t].status) && t in s'.tasks ==>
      s'.tasks[t] == s.tasks[t].(processed := s'.tasks[t].processed)
  }

  /** Every unsettled task has a message that will bring it to a worker. */
  ghost predicate LosesNothing(p: Params) {
    forall states: seq<State>, steps: seq<Step>, i: nat, t: TaskId ::
      Run(p, states, steps) && i < |states| ==> HasMail(states[i], t)
  }

  ghost predicate HasMail(s: State, t: TaskId) {
    t in s.tasks && !Terminal(s.tasks[t].status) ==> exists m :: m in s.messages && s.messages[m].task == t
  }

  // ---- Enough ----

  lemma BudgetIsSafe(p: Params)
    requires Budget(p) && !p.overlap
    ensures Safe(p) && RecoversOnlyDead(p)
  {
    forall states: seq<State>, steps: seq<Step>, i: nat | Run(p, states, steps) && i < |states|
      ensures Exclusive(states[i])
      ensures i < |steps| ==> WritesDead(states[i], steps[i])
    {
      OnePassIsFenced(p, states, steps);
      RunsKeepInvariants(p, states, steps, i);
      if i < |steps| {
        RunIsLawful(p, states, steps, i);
      }
    }
  }

  lemma BudgetKeepsResults(p: Params)
    requires Budget(p) && !p.overlap
    ensures KeepsResults(p) && LosesNothing(p)
  {
    forall states: seq<State>, steps: seq<Step>, i: nat, j: nat, t: TaskId | Run(p, states, steps) && i <= j < |states|
      ensures ResultStays(states[i], states[j], t)
    {
      OnePassIsFenced(p, states, steps);
      if t in states[i].tasks && Terminal(states[i].tasks[t].status) {
        ResultsAreFinal(p, states, steps, i, j, t);
      }
    }
    forall states: seq<State>, steps: seq<Step>, i: nat, t: TaskId | Run(p, states, steps) && i < |states|
      ensures HasMail(states[i], t)
    {
      OnePassIsFenced(p, states, steps);
      if t in states[i].tasks && !Terminal(states[i].tasks[t].status) {
        NoLostTask(p, states, steps, i, t);
      }
    }
  }

  // ---- Runs of one task ----

  ghost function Last(states: seq<State>): State
    requires |states| > 0
  {
    states[|states| - 1]
  }

  lemma Grow(p: Params, states: seq<State>, steps: seq<Step>, step: Step)
    returns (states': seq<State>, steps': seq<Step>)
    requires Run(p, states, steps) && Enabled(p, Last(states), step)
    ensures Run(p, states', steps') && Last(states') == Next(p, Last(states), step)
    ensures states' == states + [Next(p, Last(states), step)] && steps' == steps + [step]
  {
    states', steps' := states + [Next(p, Last(states), step)], steps + [step];
    forall i | 0 <= i < |steps'|
      ensures Follows(p, states'[i], steps'[i], states'[i + 1])
    {
      assert i < |steps| ==> Follows(p, states[i], steps[i], states[i + 1]);
    }
  }

  const FRESH: Row := NewRow(0, Manual, 0, 0, Origin(0, 0))

  ghost function Held(p: Params): Row {
    Claimed(FRESH, 1, 0, LeaseTime(p))
  }

  /** A system with the one task 0 and its message 0. */
  ghost function World(now: int, row: Row, visible: int, handlers: map<HandlerId, Handler>, passes: map<PassId, Recovery>): State {
    State(now, map[0 := row], map[0 := Message(0, visible)], map[0 := Send(0, NormalQueue)], map[0 := 0], handlers, passes, 0)
  }

  ghost function One(phase: Phase): map<HandlerId, Handler> {
    map[1 := Handler(1, 0, 0, phase)]
  }

  /** A pass that reads and one that writes the one row, whose lock has run out. */
  lemma ReadAndWrite(p: Params, s: State, a: PassId)
    requires s == World(s.now, Held(p), LeaseTime(p), s.handlers, s.passes) && s.now > LeaseTime(p)
    ensures a !in s.passes && (p.overlap || s.passes == map[]) ==>
      Next(p, s, RecoverRead(a)) == s.(passes := s.passes[a := Recovery(s.now, {0})])
    ensures a in s.passes && s.passes[a] == Recovery(s.now, {0}) ==>
      Next(p, s, RecoverWrite(a, 0)) == World(s.now, FRESH, LeaseTime(p), s.handlers, s.passes[a := Recovery(s.now, {})])
  {
    if a !in s.passes && (p.overlap || s.passes == map[]) {
      var read := Next(p, s, RecoverRead(a)).passes[a];
      assert Expired(s.tasks[0], s.now);
      assert read.remaining == {0};
      assert read == Recovery(s.now, {0});
    }
    assert Released(Held(p)) == FRESH;
    assert s.tasks[0 := FRESH] == map[0 := FRESH];
    assert {0} - {0} == {};
  }

  lemma ClaimedRun(p: Params) returns (states: seq<State>, steps: seq<Step>)
    ensures Run(p, states, steps) && Last(states) == World(0, Held(p), LeaseTime(p), One(Lookup(0)), map[])
  {
    states, steps := [Init], [];
    states, steps := Grow(p, states, steps, Create(0, Manual, 0, 0));
    assert Last(states) == World(0, FRESH, 0, map[], map[]);
    states, steps := Grow(p, states, steps, Receive(1, 1, 0));
    assert Last(states) == World(0, FRESH, LeaseTime(p), One(Claiming(0)), map[]);
    states, steps := Grow(p, states, steps, Claim(1, 0));
  }

  ghost function Slack(p: Params): int {
    LookupTime() + p.delay
  }

  lemma LookedUpRun(p: Params) returns (states: seq<State>, steps: seq<Step>)
    ensures Run(p, states, steps)
    ensures Last(states) == World(Slack(p), Held(p), LeaseTime(p), One(Executing(Slack(p), 0)), map[])
  {
    states, steps := ClaimedRun(p);
    states, steps := Grow(p, states, steps, Tick(Slack(p)));
    assert Last(states) == World(Slack(p), Held(p), LeaseTime(p), One(Lookup(0)), map[]);
    states, steps := Grow(p, states, steps, JobFound(1));
  }

  /** The holder after `k` failed extensions, each as slow as it may be. */
  lemma {:induction false} MissedRun(p: Params, k: nat) returns (states: seq<State>, steps: seq<Step>)
    requires k <= p.misses
    ensures Run(p, states, steps)
    ensures var now := Slack(p) + Rounds(p, k); Last(states) == World(now, Held(p), LeaseTime(p), One(Executing(now, k)), map[])
  {
    if k == 0 {
      states, steps := LookedUpRun(p);
    } else {
      var before, now := Slack(p) + Rounds(p, k - 1), Slack(p) + Rounds(p, k);
      states, steps := MissedRun(p, k - 1);
      states, steps := Grow(p, states, steps, Tick(Interval(p) + p.delay));
      assert Last(states) == World(now, Held(p), LeaseTime(p), One(Executing(before, k - 1)), map[]);
      states, steps := Grow(p, states, steps, Beat(1, now, false, false));
    }
  }

  /** A live holder just before the extension that must not fail. */
  lemma OverdueRun(p: Params) returns (states: seq<State>, steps: seq<Step>)
    ensures Run(p, states, steps)
    ensures Last(states) == Overdue(p, map[])
  {
    states, steps := MissedRun(p, p.misses);
    states, steps := Grow(p, states, steps, Tick(Interval(p) + p.delay));
  }

  ghost function Overdue(p: Params, passes: map<PassId, Recovery>): State {
    World(Slack(p) + Rounds(p, p.misses + 1), Held(p), LeaseTime(p), One(Executing(Slack(p) + Rounds(p, p.misses), p.misses)), passes)
  }

  /** Its lease has run out, and a recovery pass has read its row. */
  lemma LateRun(p: Params) returns (states: seq<State>, steps: seq<Step>)
    requires !Budget(p)
    ensures Run(p, states, steps)
    ensures var now := Slack(p) + Rounds(p, p.misses + 1); now > LeaseTime(p) && Last(states) == Overdue(p, map[0 := Recovery(now, {0})])
  {
    states, steps := OverdueRun(p);
    hide Rounds, Run;
    ReadAndWrite(p, Last(states), 0);
    states, steps := Grow(p, states, steps, RecoverRead(0));
  }

  /** Without the budget, recovery hands a live holder's task to a second handler. */
  lemma NoBudgetIsUnsafe(p: Params)
    requires !Budget(p)
    ensures !Safe(p) && !RecoversOnlyDead(p)
  {
    var states, steps := LateRun(p);
    var now, hd := Last(states).now, Last(states).handlers[1];
    var n := |steps|;
    ReadAndWrite(p, Last(states), 0);
    states, steps := Grow(p, states, steps, RecoverWrite(0, 0));
    assert !WritesDead(states[n], steps[n]) by {
      assert states[n].handlers[1] == hd && Owns(hd) && hd.task == 0;
    }
    assert Last(states) == World(now, FRESH, LeaseTime(p), One(hd.phase), map[0 := Recovery(now, {})]);
    SecondHolder(p, states, steps, 2, now);
  }

  /** A pending task with a visible message can be claimed, whoever still holds it. */
  lemma SecondHolder(p: Params, states: seq<State>, steps: seq<Step>, h: HandlerId, now: int)
    requires Run(p, states, steps) && Last(states).now == now && h !in Last(states).handlers
    requires 0 in Last(states).tasks && Last(states).tasks[0].status == Pending
    requires 0 in Last(states).messages && Last(states).messages[0].task == 0 && Last(states).messages[0].visibleAt <= now
    requires exists k :: k in Last(states).handlers && Owns(Last(states).handlers[k]) && Last(states).handlers[k].task == 0
    ensures !Safe(p)
  {
    var k :| k in Last(states).handlers && Owns(Last(states).handlers[k]) && Last(states).handlers[k].task == 0;
    var states1, steps1 := Grow(p, states, steps, Receive(h, h, 0));
    var states2, steps2 := Grow(p, states1, steps1, Claim(h, now));
    var s := states2[|states2| - 1];
    assert s.handlers[k] == Last(states).handlers[k] && Owns(s.handlers[h]) && s.handlers[h].task == 0;
    assert !Exclusive(s);
  }

  /** A settled task whose message is gone, which a pass then returns to pending: its result
      is undone and nobody will run it. */
  lemma Undone(p: Params, states: seq<State>, steps: seq<Step>, a: PassId)
    requires Run(p, states, steps) && Left(Last(states).passes, a, 0)
    requires 0 in Last(states).tasks && Terminal(Last(states).tasks[0].status) && Last(states).messages == map[]
    ensures !KeepsResults(p) && !LosesNothing(p)
  {
    var n := |steps|;
    var states', steps' := Grow(p, states, steps, RecoverWrite(a, 0));
    assert !ResultStays(states'[n], states'[n + 1], 0);
    assert !HasMail(states'[n + 1], 0);
  }

  /** Without the budget, recovery undoes the result of a worker that was only slow. */
  lemma NoBudgetLosesResults(p: Params)
    requires !Budget(p)
    ensures !KeepsResults(p) && !LosesNothing(p)
  {
    var states, steps := LateRun(p);
    var now, passes := Last(states).now, Last(states).passes;
    states, steps := Grow(p, states, steps, ExecEnds(1, true));
    assert Last(states) == World(now, Held(p), LeaseTime(p), One(Reporting(Succeeded, now)), passes);
    states, steps := Grow(p, states, steps, Report(1, 0, 1, 1));
    assert Last(states) == World(now, Finished(Held(p), Success, now), LeaseTime(p), One(Deleting), passes);
    states, steps := Grow(p, states, steps, Delete(1));
    Undone(p, states, steps, 0);
  }

  // ---- Overlapping passes ----

  /** An orphan that two passes have read and one has already returned to pending. */
  lemma SharedRun(p: Params) returns (states: seq<State>, steps: seq<Step>)
    requires p.overlap
    ensures Run(p, states, steps)
    ensures
      var now := LeaseTime(p) + 1;
      Last(states) == World(now, FRESH, LeaseTime(p), map[], map[0 := Recovery(now, {}), 1 := Recovery(now, {0})])
  {
    var now := LeaseTime(p) + 1;
    states, steps := ClaimedRun(p);
    states, steps := Grow(p, states, steps, Crash(1));
    assert Last(states) == World(0, Held(p), LeaseTime(p), map[], map[]);
    states, steps := Grow(p, states, steps, Tick(now));
    assert Last(states) == World(now, Held(p), LeaseTime(p), map[], map[]);
    states, steps := ReadTwice(p, states, steps, now);
    ReadAndWrite(p, Last(states), 0);
    states, steps := Grow(p, states, steps, RecoverWrite(0, 0));
  }

  lemma ReadTwice(p: Params, states: seq<State>, steps: seq<Step>, now: int) returns (states': seq<State>, steps': seq<Step>)
    requires p.overlap && Run(p, states, steps) && Last(states) == World(now, Held(p), LeaseTime(p), map[], map[])
    requires now > LeaseTime(p)
    ensures Run(p, states', steps')
    ensures Last(states') == World(now, Held(p), LeaseTime(p), map[], map[0 := Recovery(now, {0}), 1 := Recovery(now, {0})])
  {
    ReadAndWrite(p, Last(states), 0);
    states', steps' := Grow(p, states, steps, RecoverRead(0));
    assert Last(states') == World(now, Held(p), LeaseTime(p), map[], map[0 := Recovery(now, {0})]);
    ReadAndWrite(p, Last(states'), 1);
    states', steps' := Grow(p, states', steps', RecoverRead(1));
  }

  /** A former leader's pass resets a task that a live worker holds, whatever the timing, and a
      third worker claims it. */
  lemma OverlapIsUnsafe(p: Params)
    requires p.overlap
    ensures !Safe(p) && !RecoversOnlyDead(p)
  {
    var states, steps := SharedRun(p);
    var passes, now := Last(states).passes, 2 * LeaseTime(p) + 1;
    states, steps := Grow(p, states, steps, Receive(2, 2, 0));
    assert Last(states) == World(LeaseTime(p) + 1, FRESH, now, map[2 := Handler(2, 0, 0, Claiming(0))], passes);
    states, steps := Grow(p, states, steps, Tick(LeaseTime(p)));
    assert Last(states) == World(now, FRESH, now, map[2 := Handler(2, 0, 0, Claiming(0))], passes);
    states, steps := Grow(p, states, steps, Claim(2, now));
    ResetHolder(p, states, steps, 2, 1, now);
  }

  lemma ResetHolder(p: Params, states: seq<State>, steps: seq<Step>, h: HandlerId, a: PassId, now: int)
    requires Run(p, states, steps) && Last(states).now == now && Left(Last(states).passes, a, 0) && h + 1 !in Last(states).handlers
    requires h in Last(states).handlers && Owns(Last(states).handlers[h]) && Last(states).handlers[h].task == 0
    requires 0 in Last(states).tasks
    requires 0 in Last(states).messages && Last(states).messages[0].task == 0 && Last(states).messages[0].visibleAt <= now
    ensures !Safe(p) && !RecoversOnlyDead(p)
  {
    var n, hd := |steps|, Last(states).handlers[h];
    var states', steps' := Grow(p, states, steps, RecoverWrite(a, 0));
    assert !WritesDead(states'[n], steps'[n]) by {
      assert states'[n].handlers[h] == hd;
    }
    assert Last(states').handlers[h] == hd;
    SecondHolder(p, states', steps', h + 1, now);
  }

  /** Or it undoes a result that the second worker has already recorded. */
  lemma OverlapLosesResults(p: Params)
    requires p.overlap
    ensures !KeepsResults(p) && !LosesNothing(p)
  {
    var states, steps := SharedRun(p);
    var passes, now := Last(states).passes, LeaseTime(p) + 1;
    states, steps := Grow(p, states, steps, Receive(2, 2, 0));
    states, steps := Grow(p, states, steps, Claim(2, now));
    var row := Claimed(FRESH, 2, now, LeaseTime(p));
    assert Last(states) == World(now, row, now + LeaseTime(p), map[2 := Handler(2, 0, 0, Lookup(now))], passes);
    Settle(p, states, steps, row, now, passes);
  }

  lemma Settle(p: Params, states: seq<State>, steps: seq<Step>, row: Row, now: int, passes: map<PassId, Recovery>)
    requires Run(p, states, steps) && Left(passes, 1, 0)
    requires Last(states) == World(now, row, now + LeaseTime(p), map[2 := Handler(2, 0, 0, Lookup(now))], passes)
    ensures !KeepsResults(p) && !LosesNothing(p)
  {
    var states', steps' := Grow(p, states, steps, JobMissing(2));
    assert Last(states') == World(now, row, now + LeaseTime(p), map[2 := Handler(2, 0, 0, Reporting(NoJob, now + p.delay))], passes);
    states', steps' := Grow(p, states', steps', Report(2, 0, 1, 1));
    assert Last(states') == World(now, Finished(row, FinalFailed, now), now + LeaseTime(p), map[2 := Handler(2, 0, 0, Deleting)], passes);
    states', steps' := Grow(p, states', steps', Delete(2));
    Undone(p, states', steps', 1);
  }

  // ---- Exactly ----

  lemma {:induction false} RoundsAre(p: Params, n: nat)
    ensures Rounds(p, n) == n * (Interval(p) + p.delay)
  {
    if n > 0 {
      RoundsAre(p, n - 1);
    }
  }

  /** The budget in milliseconds: 2 s of lookup backoff, a delay, and `misses + 1` heartbeat
      rounds of max(1, floor(0.6 * claim_seconds)) seconds and a delay each, within the lease. */
  ghost predicate Fits(p: Params) {
    var sleep := if p.claimSeconds * 3 / 5 < 1 then 1 else p.claimSeconds * 3 / 5;
    2000 + p.delay + (p.misses + 1) * (1000 * sleep + p.delay) <= 1000 * p.claimSeconds
  }

  lemma BudgetInNumbers(p: Params)
    ensures Budget(p) <==> Fits(p)
  {
    RoundsAre(p, p.misses + 1);
    var sleep := if p.claimSeconds * 3 / 5 < 1 then 1 else p.claimSeconds * 3 / 5;
    assert Interval(p) == 1000 * sleep;
  }

  /** Each guarantee holds of all runs exactly when the lease fits and no recovery pass starts
      while another one is under way. */
  lemma SafeExactlyWithinBudget(p: Params)
    ensures Safe(p) <==> Fits(p) && !p.overlap
    ensures RecoversOnlyDead(p) <==> Fits(p) && !p.overlap
    ensures KeepsResults(p) <==> Fits(p) && !p.overlap
    ensures LosesNothing(p) <==> Fits(p) && !p.overlap
  {
    BudgetInNumbers(p);
    hide Safe, RecoversOnlyDead, KeepsResults, LosesNothing, Fits, Budget;
    if p.overlap {
      OverlapIsUnsafe(p);
      OverlapLosesResults(p);
    } else if Budget(p) {
      BudgetIsSafe(p);
      BudgetKeepsResults(p);
    } else {
      NoBudgetIsUnsafe(p);
      NoBudgetLosesResults(p);
    }
  }

  // ---- Exactly, state by state ----

  ghost predicate Continues(p: Params, s: State, states: seq<State>, steps: seq<Step>) {
    && |states| == |steps| + 1 && states[0] == s
    && forall i {:trigger steps[i]} | 0 <= i < |steps| :: Follows(p, states[i], steps[i], states[i + 1]) && !steps[i].RecoverRead?
  }

  /** However the run goes on, the passes already under way write only dead workers' rows. */
  ghost predicate PassesHarmless(p: Params, s: State) {
    forall states: seq<State>, steps: seq<Step>, i: nat :: Continues(p, s, states, steps) && i < |steps| ==> WritesDead(states[i], steps[i])
  }

  lemma StepAddsNoTarget(p: Params, s: State, step: Step)
    requires Enabled(p, s, step) && !step.RecoverRead?
    ensures forall a, t | Left(Next(p, s, step).passes, a, t) :: Left(s.passes, a, t)
  {
  }

  lemma StepAddsFreshRows(p: Params, s: State, step: Step)
    requires Enabled(p, s, step)
    ensures forall t | t in Next(p, s, step).tasks :: t in s.tasks || t !in s.home
  {
  }

  /** Only a read brings a row into a second pass. */
  lemma StepKeepsApart(p: Params, s: State, step: Step)
    requires Claims(p, s) && Apart(s) && Enabled(p, s, step) && !step.RecoverRead?
    ensures Apart(Next(p, s, step))
  {
    hide Next, Enabled;
    StepAddsNoTarget(p, s, step);
    StepAddsFreshRows(p, s, step);
    assert Known(s);
    assert forall a, t | Left(s.passes, a, t) :: t in s.home;
  }

  lemma {:induction false} ContinuationIsSound(p: Params, s: State, states: seq<State>, steps: seq<Step>, i: nat)
    requires Budget(p) && Claims(p, s) && Apart(s) && Continues(p, s, states, steps) && i < |states|
    ensures Claims(p, states[i]) && Apart(states[i])
  {
    if i > 0 {
      hide Claims, Apart, Next, Enabled;
      ContinuationIsSound(p, s, states, steps, i - 1);
      assert Follows(p, states[i - 1], steps[i - 1], states[i]);
      StepKeeps(p, states[i - 1], steps[i - 1]);
      StepKeepsApart(p, states[i - 1], steps[i - 1]);
    }
  }

  /** In any state reached within the budget: the passes under way do no harm in any
      continuation exactly when no two of them have the same row left to write. */
  lemma ApartIsExact(p: Params, states: seq<State>, steps: seq<Step>)
    requires Budget(p) && Run(p, states, steps) && FencedTo(states, |steps|)
    ensures PassesHarmless(p, Last(states)) <==> Apart(Last(states))
  {
    var s := Last(states);
    RunsKeepInvariants(p, states, steps, |steps|);
    if Apart(s) {
      forall later: seq<State>, more: seq<Step>, i: nat | Continues(p, s, later, more) && i < |more|
        ensures WritesDead(later[i], more[i])
      {
        hide Claims, Apart, Next, Enabled;
        ContinuationIsSound(p, s, later, more, i);
        assert Follows(p, later[i], more[i], later[i + 1]);
        StepWritesOwn(p, later[i], more[i]);
      }
    } else {
      SharedIsHarmful(p, s);
    }
  }

  lemma SharedIsHarmful(p: Params, s: State)
    requires !Apart(s)
    ensures !PassesHarmless(p, s)
  {
    var a, b, t :| Left(s.passes, a, t) && Left(s.passes, b, t) && t in s.tasks && a != b;
    var first, second := RecoverWrite(a, t), RecoverWrite(b, t);
    var s1 := Next(p, s, first);
    var states, steps := [s, s1, Next(p, s1, second)], [first, second];
    assert Continues(p, s, states, steps);
    assert !WritesDead(states[1], steps[1]);
  }
}
