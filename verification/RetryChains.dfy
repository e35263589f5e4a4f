/** Retry chains in the lease protocol: a first attempt and the retries that follow it. */
module RetryChains {
  import opened Tasks
  import opened Lease
  import opened LeaseSafety
  import opened LeaseTheorems
  import Counting

  /** Every failure consults the same, fixed max_retries of its job. */
  ghost predicate FixedLimits(states: seq<State>, steps: seq<Step>, limits: JobId -> nat)
    requires |states| == |steps| + 1
  {
    forall i | 0 <= i < |steps| :: UsesLimit(states[i], steps[i], limits)
  }

  ghost predicate UsesLimit(s: State, step: Step, limits: JobId -> nat) {
    step.Report? && In(s, step.h) && s.handlers[step.h].task in s.tasks ==>
      step.maxRetries == limits(s.tasks[s.handlers[step.h].task].job)
  }

  function Larger(a: int, b: int): int {
    if a >= b then a else b
  }

  function Count(s: State, t: TaskId): nat {
    if t in s.tasks then s.tasks[t].retryCount else 0
  }

  ghost function Chain(s: State, origin: Origin): set<TaskId> {
    set t | t in s.tasks && s.tasks[t].origin == origin
  }

  ghost predicate HasCount(s: State, origin: Origin, n: int) {
    exists t :: t in s.tasks && s.tasks[t].origin == origin && s.tasks[t].retryCount == n
  }

  /** A row's count lies between its chain's first count and the retry limit. */
  ghost predicate Limited(s: State, limits: JobId -> nat) {
    forall t | t in s.tasks ::
      var row := s.tasks[t];
      && row.origin.task in s.home
      && row.origin.count <= row.retryCount <= Larger(row.origin.count, limits(row.job))
  }

  /** Attempts of one chain agree on job and trigger, differ in count, and all but the
      last have failed. */
  ghost predicate Ordered(s: State) {
    forall t, u | t in s.tasks && u in s.tasks && t != u && s.tasks[t].origin == s.tasks[u].origin ::
      && s.tasks[t].job == s.tasks[u].job
      && s.tasks[t].trigger == s.tasks[u].trigger
      && s.tasks[t].retryCount != s.tasks[u].retryCount
      && (s.tasks[t].retryCount < s.tasks[u].retryCount ==> s.tasks[t].status == Failed)
  }

  /** No count is skipped, and a failed attempt has a successor. */
  ghost predicate Dense(s: State) {
    && (forall t, n | t in s.tasks && s.tasks[t].origin.count <= n <= s.tasks[t].retryCount :: HasCount(s, s.tasks[t].origin, n))
    && (forall t | t in s.tasks && s.tasks[t].status == Failed :: HasCount(s, s.tasks[t].origin, s.tasks[t].retryCount + 1))
  }

  ghost predicate Chains(s: State, limits: JobId -> nat) {
    && Limited(s, limits)
    && Ordered(s)
    && Dense(s)
  }

  // ---- Each kind of change keeps chains ----

  /** The same rows, with the same failures. */
  ghost predicate SameShape(s: State, s': State) {
    && s'.tasks.Keys == s.tasks.Keys && s'.home == s.home
    && forall t | t in s.tasks :: SameAttempt(s.tasks[t], s'.tasks[t])
  }

  ghost predicate SameAttempt(row: Row, row': Row) {
    && row'.job == row.job && row'.trigger == row.trigger
    && row'.retryCount == row.retryCount && row'.origin == row.origin
    && (row'.status == Failed <==> row.status == Failed)
  }

  /** Counts survive when no attempt of a chain is lost. */
  lemma CountsSurvive(s: State, s': State, origin: Origin, n: int)
    requires HasCount(s, origin, n)
    requires forall t | t in s.tasks && s.tasks[t].origin == origin ::
      t in s'.tasks && s'.tasks[t].origin == origin && s'.tasks[t].retryCount == s.tasks[t].retryCount
    ensures HasCount(s', origin, n)
  {
    var t :| t in s.tasks && s.tasks[t].origin == origin && s.tasks[t].retryCount == n;
    assert t in s'.tasks;
  }

  lemma SameShapeKeeps(s: State, s': State, limits: JobId -> nat)
    requires Chains(s, limits) && SameShape(s, s')
    ensures Chains(s', limits)
  {
    hide HasCount, Dense;
    SameShapeKeepsDense(s, s');
  }

  lemma SameShapeKeepsDense(s: State, s': State)
    requires Dense(s) && SameShape(s, s')
    ensures Dense(s')
  {
    hide HasCount;
    forall origin, n | HasCount(s, origin, n)
      ensures HasCount(s', origin, n)
    {
      CountsSurvive(s, s', origin, n);
    }
  }

  lemma WriteSameShape(s: State, s': State, t: TaskId, row: Row)
    requires t in s.tasks && s'.tasks == s.tasks[t := row] && s'.home == s.home && SameAttempt(s.tasks[t], row)
    ensures SameShape(s, s')
  {
  }

  lemma StepSameShape(p: Params, s: State, step: Step)
    requires WritesOwn(s, step) && Enabled(p, s, step)
    requires !step.Create? && !step.ManualRetry? && !step.Report? && !step.RemoveJob?
    ensures SameShape(s, Next(p, s, step))
  {
    var s' := Next(p, s, step);
    if s'.tasks != s.tasks {
      hide SameShape;
      var t := if step.Claim? || step.Beat? then s.handlers[step.h].task else step.task;
      WriteSameShape(s, s', t, s'.tasks[t]);
    }
  }

  /** A first attempt, or a manual retry, opens a chain of its own. */
  lemma OpenKeeps(s: State, s': State, id: TaskId, row: Row, limits: JobId -> nat)
    requires Chains(s, limits) && id !in s.tasks && id !in s.home
    requires row.origin == Origin(id, row.retryCount) && row.status == Pending
    requires s'.tasks == s.tasks[id := row] && id in s'.home && s.home.Keys <= s'.home.Keys
    ensures Chains(s', limits)
  {
    assert s'.tasks[id] == row;
    assert HasCount(s', row.origin, row.retryCount);
    hide HasCount;
    forall origin, n | HasCount(s, origin, n)
      ensures HasCount(s', origin, n)
    {
      CountsSurvive(s, s', origin, n);
    }
  }

  /** A failure with retries left extends its chain by the next count. */
  lemma RetryKeeps(s: State, s': State, t: TaskId, id: TaskId, row: Row, limits: JobId -> nat)
    requires Chains(s, limits) && Retries(s, s', t, id, row) && row.retryCount <= limits(row.job)
    ensures Chains(s', limits)
  {
    assert s'.tasks[id] == row;
    hide HasCount, Dense;
    RetryKeepsDense(s, s', t, id, row);
    RetryKeepsOrdered(s, s', t, id, row);
    hide Ordered;
  }

  /** Attempt `t` has failed and `id` follows it in its chain. */
  ghost predicate Retries(s: State, s': State, t: TaskId, id: TaskId, row: Row) {
    && t in s.tasks && s.tasks[t].status == Running && id !in s.tasks && t in s'.tasks
    && s'.tasks == s.tasks[t := s'.tasks[t]][id := row] && s.home.Keys <= s'.home.Keys
    && s'.tasks[t] == s.tasks[t].(status := Failed, lockedBy := None, lockedUntil := None, finishedAt := s'.tasks[t].finishedAt)
    && row.job == s.tasks[t].job && row.trigger == s.tasks[t].trigger && row.origin == s.tasks[t].origin
    && row.retryCount == s.tasks[t].retryCount + 1 && row.status == Pending
  }

  lemma RetryKeepsOrdered(s: State, s': State, t: TaskId, id: TaskId, row: Row)
    requires Ordered(s) && Retries(s, s', t, id, row)
    ensures Ordered(s')
  {
    assert s'.tasks[id] == row;
  }

  lemma RetryKeepsDense(s: State, s': State, t: TaskId, id: TaskId, row: Row)
    requires Dense(s) && Retries(s, s', t, id, row)
    ensures Dense(s')
  {
    assert s'.tasks[id] == row;
    assert HasCount(s', row.origin, row.retryCount);
    hide HasCount;
    forall u, n | u in s'.tasks && s'.tasks[u].origin.count <= n <= s'.tasks[u].retryCount
      ensures HasCount(s', s'.tasks[u].origin, n)
    {
      if u != id || n < row.retryCount {
        var v := if u == id then t else u;
        assert HasCount(s, s.tasks[v].origin, n);
        CountsSurvive(s, s', s.tasks[v].origin, n);
      }
    }
    forall u | u in s'.tasks && s'.tasks[u].status == Failed
      ensures HasCount(s', s'.tasks[u].origin, s'.tasks[u].retryCount + 1)
    {
      if u != t {
        CountsSurvive(s, s', s.tasks[u].origin, s.tasks[u].retryCount + 1);
      }
    }
  }

  lemma RemoveKeepsChains(s: State, s': State, job: JobId, limits: JobId -> nat)
    requires Chains(s, limits) && s'.home == s.home
    requires s'.tasks == map t | t in s.tasks && s.tasks[t].job != job :: s.tasks[t]
    ensures Chains(s', limits)
  {
    hide HasCount, Dense;
    assert s'.tasks.Keys <= s.tasks.Keys && forall t | t in s'.tasks :: s'.tasks[t] == s.tasks[t];
    RemoveKeepsDense(s, s', job);
  }

  lemma RemoveKeepsDense(s: State, s': State, job: JobId)
    requires Ordered(s) && Dense(s)
    requires s'.tasks == map t | t in s.tasks && s.tasks[t].job != job :: s.tasks[t]
    ensures Dense(s')
  {
    hide HasCount;
    forall t, n | t in s'.tasks && HasCount(s, s'.tasks[t].origin, n)
      ensures HasCount(s', s'.tasks[t].origin, n)
    {
      CountsSurvive(s, s', s'.tasks[t].origin, n);
    }
  }

  lemma ReportKeepsChains(p: Params, s: State, step: Step, limits: JobId -> nat)
    requires step.Report? && Chains(s, limits) && WritesOwn(s, step) && Enabled(p, s, step) && UsesLimit(s, step, limits)
    ensures Chains(Next(p, s, step), limits)
  {
    hide Chains;
    var hd, s' := s.handlers[step.h], Next(p, s, step);
    if hd.task in s.tasks && hd.phase.outcome == Broke && s.tasks[hd.task].retryCount < step.maxRetries {
      var row := s.tasks[hd.task];
      RetryKeeps(s, s', hd.task, step.id, NewRow(row.job, row.trigger, row.retryCount + 1, s.now, row.origin), limits);
    } else {
      SameShapeKeeps(s, s', limits);
    }
  }

  lemma StepKeepsChains(p: Params, s: State, step: Step, limits: JobId -> nat)
    requires Chains(s, limits) && WritesOwn(s, step) && Enabled(p, s, step) && UsesLimit(s, step, limits)
    ensures Chains(Next(p, s, step), limits)
  {
    hide Chains, SameShape;
    var s' := Next(p, s, step);
    match step
    case Create(job, trigger, id, _) => OpenKeeps(s, s', id, NewRow(job, trigger, 0, s.now, Origin(id, 0)), limits);
    case ManualRetry(failed, id, _) =>
      var row := s.tasks[failed];
      OpenKeeps(s, s', id, NewRow(row.job, row.trigger, row.retryCount + 1, s.now, Origin(id, row.retryCount + 1)), limits);
    case RemoveJob(job) => RemoveKeepsChains(s, s', job, limits);
    case Report(_, _, _, _) => ReportKeepsChains(p, s, step, limits);
    case _ =>
      StepSameShape(p, s, step);
      SameShapeKeeps(s, s', limits);
  }

  lemma {:induction false} RunsKeepChains(p: Params, states: seq<State>, steps: seq<Step>, limits: JobId -> nat, i: nat)
    requires Budget(p) && Run(p, states, steps) && FixedLimits(states, steps, limits) && i < |states| && FencedTo(states, i)
    ensures Chains(states[i], limits)
  {
    hide Chains, WritesOwn, Next, Enabled, UsesLimit, Apart;
    if i == 0 {
      InitChains(limits);
    } else {
      RunsKeepChains(p, states, steps, limits, i - 1);
      RunIsLawful(p, states, steps, i - 1);
      assert Follows(p, states[i - 1], steps[i - 1], states[i]);
      assert UsesLimit(states[i - 1], steps[i - 1], limits);
      StepKeepsChains(p, states[i - 1], steps[i - 1], limits);
    }
  }

  lemma InitChains(limits: JobId -> nat)
    ensures Chains(Init, limits)
  {
  }

  // ---- The shape of a chain ----

  /** At most `max(1, limit + 1 - first)` attempts with consecutive counts from `first`;
      all but the last have failed, and the last has not. */
  ghost predicate WellShaped(s: State, origin: Origin, limit: nat) {
    var chain := Chain(s, origin);
    && |chain| <= Larger(1, limit + 1 - origin.count)
    && (forall n :: origin.count <= n < origin.count + |chain| <==> HasCount(s, origin, n))
    && (forall t, u | t in chain && u in chain :: s.tasks[t].job == s.tasks[u].job && s.tasks[t].trigger == s.tasks[u].trigger)
    && (forall t | t in chain :: s.tasks[t].status == Failed <==> s.tasks[t].retryCount < origin.count + |chain| - 1)
  }

  lemma RetryChainShape(p: Params, states: seq<State>, steps: seq<Step>, limits: JobId -> nat, i: nat, t: TaskId)
    requires Budget(p) && Run(p, states, steps) && FixedLimits(states, steps, limits)
    requires i < |states| && FencedTo(states, i) && t in states[i].tasks
    ensures WellShaped(states[i], states[i].tasks[t].origin, limits(states[i].tasks[t].job))
  {
    RunsKeepChains(p, states, steps, limits, i);
    ChainShape(states[i], limits, t);
  }

  lemma ChainShape(s: State, limits: JobId -> nat, t: TaskId)
    requires Chains(s, limits) && t in s.tasks
    ensures WellShaped(s, s.tasks[t].origin, limits(s.tasks[t].job))
  {
    hide HasCount, Counting.Hits;
    var origin := s.tasks[t].origin;
    var chain, count := Chain(s, origin), (t: TaskId) => Count(s, t) as int;
    assert t in chain;
    var last := Counting.Greatest(chain, count);
    var top := s.tasks[last].retryCount;
    forall n: int
      ensures HasCount(s, origin, n) <==> Counting.Hits(chain, count, n)
      ensures HasCount(s, origin, n) ==> origin.count <= n <= top
    {
      CountHits(s, origin, n, count, top);
    }
    Counting.NumberedSize(chain, count, origin.count, top + 1);
  }

  lemma CountHits(s: State, origin: Origin, n: int, count: TaskId -> int, top: int)
    requires forall t :: count(t) == Count(s, t)
    requires forall t | t in Chain(s, origin) :: origin.count <= count(t) <= top
    ensures HasCount(s, origin, n) <==> Counting.Hits(Chain(s, origin), count, n)
    ensures HasCount(s, origin, n) ==> origin.count <= n <= top
  {
    if HasCount(s, origin, n) {
      var t :| t in s.tasks && s.tasks[t].origin == origin && s.tasks[t].retryCount == n;
      assert t in Chain(s, origin) && count(t) == n;
    }
  }
}
