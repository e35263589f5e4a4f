/** Dependency chaining: passes over unprocessed successes, interleaved with everything
    else that creates, starts and finishes tasks. */
module Chaining {
  import opened Tasks
  import opened Graph
  import Counting

  const BATCH_LIMIT := 100

  /** A dependency trigger: the job, the newest upstream completion, the new task. */
  datatype Firing = Firing(job: JobId, readyAt: int, task: TaskId)

  datatype State = State(now: int, tasks: map<TaskId, Row>, triggers: seq<Firing>)

  // ---- The queries of a pass ----

  function Unprocessed(tasks: map<TaskId, Row>): set<TaskId> {
    set t | t in tasks && tasks[t].status == Success && !tasks[t].processed
  }

  /** At most BATCH_LIMIT unprocessed successes, the oldest ones, ties broken anyhow. */
  ghost predicate IsBatch(tasks: map<TaskId, Row>, batch: set<TaskId>) {
    && batch <= Unprocessed(tasks)
    && (|batch| == BATCH_LIMIT || batch == Unprocessed(tasks)) && |batch| <= BATCH_LIMIT
    && (forall t, u | t in batch && u in Unprocessed(tasks) - batch :: tasks[t].createdAt <= tasks[u].createdAt)
  }

  /** A batch misses an unprocessed success only if it is full, with 100 that are no younger. */
  lemma BatchIsOldest(tasks: map<TaskId, Row>, batch: set<TaskId>, t: TaskId)
    requires IsBatch(tasks, batch)
    ensures |batch| <= 100
    ensures t in batch ==> t in tasks && tasks[t].status == Success && !tasks[t].processed
    ensures t in tasks && tasks[t].status == Success && !tasks[t].processed && t !in batch ==>
      |batch| == 100 && forall u | u in batch :: u in tasks && tasks[u].createdAt <= tasks[t].createdAt
  {
  }

  /** The most recently created task of each job, ties broken anyhow. */
  ghost predicate IsLatest(tasks: map<TaskId, Row>, latest: map<JobId, TaskId>) {
    && (forall j | j in latest :: latest[j] in tasks && tasks[latest[j]].job == j)
    && (forall t | t in tasks ::
          tasks[t].job in latest && latest[tasks[t].job] in tasks
          && tasks[t].createdAt <= tasks[latest[tasks[t].job]].createdAt)
  }

  function Marked(tasks: map<TaskId, Row>, batch: set<TaskId>): map<TaskId, Row> {
    map t | t in tasks :: if t in batch then Chained(tasks[t]) else tasks[t]
  }

  // ---- The decision ----

  /** Enabled jobs directly downstream of a job in the batch. */
  function Candidates(edges: set<Edge>, enabled: set<JobId>, tasks: map<TaskId, Row>, batch: set<TaskId>): set<JobId> {
    set t, e | t in batch && t in tasks && e in edges && e.0 == tasks[t].job && e.1 in enabled :: e.1
  }

  predicate UpstreamsSucceeded(edges: set<Edge>, tasks: map<TaskId, Row>, latest: map<JobId, TaskId>, job: JobId) {
    forall u | u in Upstreams(edges, job) :: u in latest && latest[u] in tasks && tasks[latest[u]].status == Success
  }

  /** The newest completion among the upstreams' latest tasks. */
  ghost function ReadyAt(edges: set<Edge>, tasks: map<TaskId, Row>, latest: map<JobId, TaskId>, job: JobId): int
    requires UpstreamsSucceeded(edges, tasks, latest, job) && Upstreams(edges, job) != {}
  {
    var times := set u | u in Upstreams(edges, job) :: CompletedAt(tasks[latest[u]]);
    assert times != {} by {
      var u :| u in Upstreams(edges, job);
      assert CompletedAt(tasks[latest[u]]) in times;
    }
    Counting.Max(times)
  }

  /** All upstreams have succeeded and the job has not run since. */
  ghost predicate Ready(edges: set<Edge>, tasks: map<TaskId, Row>, latest: map<JobId, TaskId>, job: JobId) {
    && Upstreams(edges, job) != {}
    && UpstreamsSucceeded(edges, tasks, latest, job)
    && (job in latest && latest[job] in tasks ==>
          CompletedAt(tasks[latest[job]]) < ReadyAt(edges, tasks, latest, job))
  }

  // ---- Steps ----

  datatype Step =
    | Tick(dt: nat)
    | Add(id: TaskId, row: Row)
    | Change(task: TaskId, row: Row)
    | Retry(task: TaskId, row: Row, id: TaskId, attempt: Row)
    | Pass(edges: set<Edge>, enabled: set<JobId>, batch: set<TaskId>, latest: map<JobId, TaskId>, created: seq<Firing>)

  ghost predicate SameRun(row: Row, row': Row) {
    && row'.job == row.job && row'.trigger == row.trigger && row'.retryCount == row.retryCount
    && row'.createdAt == row.createdAt && row'.processed == row.processed && row'.origin == row.origin
  }

  /** Claims, heartbeats, recoveries and results: only a running task ends, now, and an
      ended task never changes. */
  ghost predicate Evolves(row: Row, row': Row, now: int) {
    && SameRun(row, row')
    && ((!Terminal(row.status) && !Terminal(row'.status) && row'.finishedAt == row.finishedAt)
        || (row.status == Running && Terminal(row'.status) && row'.status != Failed && row'.finishedAt == Some(now)))
  }

  ghost predicate Brandnew(row: Row, now: int) {
    row.status == Pending && row.createdAt == now && row.finishedAt.None? && !row.processed
  }

  ghost predicate PassFires(s: State, step: Step)
    requires step.Pass?
  {
    var tasks, created := Marked(s.tasks, step.batch), step.created;
    var candidates := Candidates(step.edges, step.enabled, s.tasks, step.batch);
    && (forall i, k | 0 <= i < k < |created| :: created[i].job != created[k].job && created[i].task != created[k].task)
    && (forall f | f in created :: f.task !in s.tasks)
    && (forall f | f in created :: f.job in candidates && Ready(step.edges, tasks, step.latest, f.job)
          && f.readyAt == ReadyAt(step.edges, tasks, step.latest, f.job))
    && (forall d | d in candidates && Ready(step.edges, tasks, step.latest, d) :: exists f :: f in created && f.job == d)
  }

  /** The marked rows plus one pending row per firing. */
  ghost predicate Grown(tasks: map<TaskId, Row>, tasks': map<TaskId, Row>, created: seq<Firing>, now: int) {
    && (forall t :: t in tasks' <==> t in tasks || exists f :: f in created && f.task == t)
    && (forall t | t in tasks && t in tasks' :: tasks'[t] == tasks[t])
    && (forall f | f in created && f.task in tasks' :: tasks'[f.task] == NewRow(f.job, Dependency, 0, now, Origin(f.task, 0)))
  }

  ghost predicate Passes(s: State, step: Step, s': State)
    requires step.Pass?
  {
    && IsBatch(s.tasks, step.batch)
    && IsLatest(s.tasks, step.latest)
    && PassFires(s, step)
    && Grown(Marked(s.tasks, step.batch), s'.tasks, step.created, s.now)
    && s'.triggers == s.triggers + step.created
    && s'.now == s.now
  }

  ghost predicate Follows(s: State, step: Step, s': State) {
    match step
    case Tick(dt) => s' == s.(now := s.now + dt)
    case Add(id, row) =>
      && id !in s.tasks && Brandnew(row, s.now) && row.origin == Origin(id, row.retryCount)
      && s' == s.(tasks := s.tasks[id := row])
    case Change(t, row) => t in s.tasks && Evolves(s.tasks[t], row, s.now) && s' == s.(tasks := s.tasks[t := row])
    case Retry(t, row, id, attempt) =>
      && t in s.tasks && s.tasks[t].status == Running && SameRun(s.tasks[t], row)
      && row.status == Failed && row.finishedAt == Some(s.now)
      && id !in s.tasks && Brandnew(attempt, s.now) && attempt.origin == row.origin && attempt.job == row.job
      && s' == s.(tasks := s.tasks[t := row][id := attempt])
    case Pass(_, _, _, _, _) => Passes(s, step, s')
  }

  ghost predicate Segment(states: seq<State>, steps: seq<Step>) {
    && |states| == |steps| + 1
    && forall i {:trigger steps[i]} | 0 <= i < |steps| :: Follows(states[i], steps[i], states[i + 1])
  }

  ghost predicate Run(states: seq<State>, steps: seq<Step>) {
    Segment(states, steps) && states[0].tasks == map[] && states[0].triggers == []
  }

  // ---- Rows over time ----

  /** Rows complete after they are created and not in the future; only successes are processed. */
  ghost predicate Timely(s: State) {
    forall t | t in s.tasks ::
      var row := s.tasks[t];
      && (Terminal(row.status) <==> row.finishedAt.Some?)
      && row.createdAt <= CompletedAt(row) <= s.now
      && (row.processed ==> row.status == Success)
  }

  /** Every trigger left a task created no earlier than its ready time. */
  ghost predicate Recorded(s: State) {
    forall f | f in s.triggers ::
      && f.task in s.tasks && s.tasks[f.task].job == f.job
      && s.tasks[f.task].origin.task == f.task
      && f.readyAt <= s.tasks[f.task].createdAt
  }

  lemma ReadyAtBound(s: State, edges: set<Edge>, batch: set<TaskId>, latest: map<JobId, TaskId>, job: JobId)
    requires Timely(s) && Upstreams(edges, job) != {} && UpstreamsSucceeded(edges, Marked(s.tasks, batch), latest, job)
    ensures ReadyAt(edges, Marked(s.tasks, batch), latest, job) <= s.now
  {
    var tasks := Marked(s.tasks, batch);
    var times := set u | u in Upstreams(edges, job) :: CompletedAt(tasks[latest[u]]);
    forall x | x in times
      ensures x <= s.now
    {
      var u :| u in Upstreams(edges, job) && x == CompletedAt(tasks[latest[u]]);
      assert CompletedAt(tasks[latest[u]]) == CompletedAt(s.tasks[latest[u]]);
    }
  }

  lemma GrownIsTimely(s: State, step: Step, s': State)
    requires Timely(s) && step.Pass? && step.batch <= Unprocessed(s.tasks) && s'.now == s.now
    requires Grown(Marked(s.tasks, step.batch), s'.tasks, step.created, s.now)
    ensures Timely(s')
  {
  }

  lemma FiringsBound(s: State, step: Step, f: Firing)
    requires Timely(s) && step.Pass? && PassFires(s, step) && f in step.created
    ensures f.readyAt <= s.now
  {
    ReadyAtBound(s, step.edges, step.batch, step.latest, f.job);
  }

  lemma GrownIsRecorded(s: State, step: Step, s': State)
    requires Recorded(s) && step.Pass? && s'.triggers == s.triggers + step.created
    requires forall f | f in step.created :: f.readyAt <= s.now
    requires Grown(Marked(s.tasks, step.batch), s'.tasks, step.created, s.now)
    ensures Recorded(s')
  {
    forall f | f in s'.triggers
      ensures
        && f.task in s'.tasks && s'.tasks[f.task].job == f.job
        && s'.tasks[f.task].origin.task == f.task
        && f.readyAt <= s'.tasks[f.task].createdAt
    {
      assert f in s.triggers || f in step.created;
    }
  }

  lemma PassKeepsRows(s: State, step: Step, s': State)
    requires Timely(s) && Recorded(s) && step.Pass? && Passes(s, step, s')
    ensures Timely(s') && Recorded(s')
  {
    hide Timely, Recorded, Grown, PassFires, Unprocessed, IsLatest;
    GrownIsTimely(s, step, s');
    forall f | f in step.created
      ensures f.readyAt <= s.now
    {
      FiringsBound(s, step, f);
    }
    GrownIsRecorded(s, step, s');
  }

  lemma StepKeepsRows(s: State, step: Step, s': State)
    requires Timely(s) && Recorded(s) && Follows(s, step, s')
    ensures Timely(s') && Recorded(s')
  {
    if step.Pass? {
      PassKeepsRows(s, step, s');
    }
  }

  lemma {:induction false} RunsKeepRows(states: seq<State>, steps: seq<Step>, i: nat)
    requires Segment(states, steps) && Timely(states[0]) && Recorded(states[0]) && i < |states|
    ensures Timely(states[i]) && Recorded(states[i])
  {
    if i > 0 {
      RunsKeepRows(states, steps, i - 1);
      assert Follows(states[i - 1], steps[i - 1], states[i]);
      hide Timely, Recorded, Follows;
      StepKeepsRows(states[i - 1], steps[i - 1], states[i]);
    }
  }

  // ---- The generation guard ----

  /** Ready times at which a job is triggered strictly increase. */
  ghost predicate NewGenerations(triggers: seq<Firing>) {
    forall i, k | 0 <= i < k < |triggers| && triggers[i].job == triggers[k].job :: triggers[i].readyAt < triggers[k].readyAt
  }

  /** A firing is newer than every recorded one of its job: the earlier trigger's task, or
      something created later, stands as the job's latest task. */
  lemma FiringIsNewer(s: State, step: Step, s': State, f: Firing, g: Firing)
    requires Timely(s) && Recorded(s) && step.Pass? && Passes(s, step, s')
    requires f in s.triggers && g in step.created && f.job == g.job
    ensures f.readyAt < g.readyAt
  {
    var tasks := Marked(s.tasks, step.batch);
    assert s.tasks[f.task].job in step.latest;
    var own := step.latest[f.job];
    assert s.tasks[f.task].createdAt <= s.tasks[own].createdAt;
    assert CompletedAt(tasks[own]) == CompletedAt(s.tasks[own]);
    assert Ready(step.edges, tasks, step.latest, g.job);
  }

  lemma PassAppends(s: State, step: Step, s': State)
    requires step.Pass? && Passes(s, step, s')
    ensures s'.triggers == s.triggers + step.created
    ensures forall i, k | 0 <= i < k < |step.created| :: step.created[i].job != step.created[k].job
  {
  }

  lemma PassKeepsGenerations(s: State, step: Step, s': State)
    requires Timely(s) && Recorded(s) && NewGenerations(s.triggers) && step.Pass? && Passes(s, step, s')
    ensures NewGenerations(s'.triggers)
  {
    hide Timely, Recorded, Passes;
    PassAppends(s, step, s');
    forall i, k | 0 <= i < |s.triggers| && 0 <= k < |step.created| && s.triggers[i].job == step.created[k].job
      ensures s.triggers[i].readyAt < step.created[k].readyAt
    {
      FiringIsNewer(s, step, s', s.triggers[i], step.created[k]);
    }
  }

  /** Over every run, whatever else creates, retries or finishes tasks and however the graph
      is edited, no set of upstream completions triggers a job twice. */
  lemma {:induction false} GenerationGuard(states: seq<State>, steps: seq<Step>, i: nat)
    requires Run(states, steps) && i < |states|
    ensures NewGenerations(states[i].triggers)
  {
    if i > 0 {
      GenerationGuard(states, steps, i - 1);
      RunsKeepRows(states, steps, i - 1);
      assert Follows(states[i - 1], steps[i - 1], states[i]);
      if steps[i - 1].Pass? {
        hide Timely, Recorded, Passes, NewGenerations;
        PassKeepsGenerations(states[i - 1], steps[i - 1], states[i]);
      }
    }
  }

  // ---- Who is triggered ----

  /** Some task of the batch is a run of a direct upstream of `job`. */
  ghost predicate BatchReaches(edges: set<Edge>, tasks: map<TaskId, Row>, batch: set<TaskId>, job: JobId) {
    exists t :: t in batch && t in tasks && (tasks[t].job, job) in edges
  }

  /** Every direct upstream's newest task succeeded, there is one, and one of them completed after
      the job's own newest task. */
  ghost predicate DueNow(edges: set<Edge>, tasks: map<TaskId, Row>, latest: map<JobId, TaskId>, job: JobId) {
    && (exists u :: (u, job) in edges)
    && (forall u | (u, job) in edges :: u in latest && latest[u] in tasks && tasks[latest[u]].status == Success)
    && (job in latest && latest[job] in tasks ==>
          exists u :: (u, job) in edges && u in latest && latest[u] in tasks && CompletedAt(tasks[latest[job]]) < CompletedAt(tasks[latest[u]]))
  }

  lemma ReadyIsDueNow(edges: set<Edge>, tasks: map<TaskId, Row>, latest: map<JobId, TaskId>, job: JobId)
    ensures Ready(edges, tasks, latest, job) <==> DueNow(edges, tasks, latest, job)
  {
    UpstreamsAre(edges, job);
    var ups := Upstreams(edges, job);
    if UpstreamsSucceeded(edges, tasks, latest, job) && ups != {} {
      var times := set u | u in ups :: CompletedAt(tasks[latest[u]]);
      var at := ReadyAt(edges, tasks, latest, job);
      var u :| u in ups && at == CompletedAt(tasks[latest[u]]);
      assert forall w | w in ups :: CompletedAt(tasks[latest[w]]) in times;
    }
  }

  lemma CandidatesAre(edges: set<Edge>, enabled: set<JobId>, tasks: map<TaskId, Row>, batch: set<TaskId>, job: JobId)
    ensures job in Candidates(edges, enabled, tasks, batch) <==> job in enabled && BatchReaches(edges, tasks, batch, job)
  {
    if job in Candidates(edges, enabled, tasks, batch) {
      var t, e :| t in batch && t in tasks && e in edges && e.0 == tasks[t].job && e.1 in enabled && e.1 == job;
      assert (tasks[t].job, job) in edges;
    }
    if job in enabled && BatchReaches(edges, tasks, batch, job) {
      var t :| t in batch && t in tasks && (tasks[t].job, job) in edges;
      var e := (tasks[t].job, job);
      assert e in edges && e.1 in enabled;
    }
  }

  /** A pass triggers a job, once, exactly if it is enabled, directly downstream of a task of the
      batch, and due; the ready time is the newest upstream completion. */
  lemma PassTriggersExactly(s: State, step: Step, s': State, job: JobId)
    requires step.Pass? && Passes(s, step, s')
    ensures (exists f :: f in step.created && f.job == job)
      <==> job in step.enabled && BatchReaches(step.edges, s.tasks, step.batch, job) && DueNow(step.edges, s.tasks, step.latest, job)
    ensures forall f | f in step.created && f.job == job ::
      && (exists u :: (u, job) in step.edges && u in step.latest && step.latest[u] in s.tasks && CompletedAt(s.tasks[step.latest[u]]) == f.readyAt)
      && (forall u | (u, job) in step.edges && u in step.latest && step.latest[u] in s.tasks :: CompletedAt(s.tasks[step.latest[u]]) <= f.readyAt)
  {
    var tasks := Marked(s.tasks, step.batch);
    CandidatesAre(step.edges, step.enabled, s.tasks, step.batch, job);
    ReadyIsDueNow(step.edges, tasks, step.latest, job);
    MarkedIsDueNow(step.edges, s.tasks, step.batch, step.latest, job);
    hide DueNow, Grown, IsBatch, IsLatest, Candidates, BatchReaches, Ready;
    forall f | f in step.created && f.job == job
      ensures exists u :: (u, job) in step.edges && u in step.latest && step.latest[u] in s.tasks && CompletedAt(s.tasks[step.latest[u]]) == f.readyAt
      ensures forall u | (u, job) in step.edges && u in step.latest && step.latest[u] in s.tasks :: CompletedAt(s.tasks[step.latest[u]]) <= f.readyAt
    {
      ReadyAtIsNewest(s.tasks, step, f);
    }
  }

  lemma MarkedIsDueNow(edges: set<Edge>, tasks: map<TaskId, Row>, batch: set<TaskId>, latest: map<JobId, TaskId>, job: JobId)
    ensures DueNow(edges, Marked(tasks, batch), latest, job) <==> DueNow(edges, tasks, latest, job)
  {
    assert forall t | t in tasks :: Marked(tasks, batch)[t].status == tasks[t].status && CompletedAt(Marked(tasks, batch)[t]) == CompletedAt(tasks[t]);
  }

  lemma ReadyAtIsNewest(tasks: map<TaskId, Row>, step: Step, f: Firing)
    requires step.Pass? && Ready(step.edges, Marked(tasks, step.batch), step.latest, f.job)
    requires f.readyAt == ReadyAt(step.edges, Marked(tasks, step.batch), step.latest, f.job)
    ensures exists u :: (u, f.job) in step.edges && u in step.latest && step.latest[u] in tasks && CompletedAt(tasks[step.latest[u]]) == f.readyAt
    ensures forall u | (u, f.job) in step.edges && u in step.latest && step.latest[u] in tasks :: CompletedAt(tasks[step.latest[u]]) <= f.readyAt
  {
    UpstreamsAre(step.edges, f.job);
    var ups, marked := Upstreams(step.edges, f.job), Marked(tasks, step.batch);
    var times := set u | u in ups :: CompletedAt(marked[step.latest[u]]);
    var u :| u in ups && f.readyAt == CompletedAt(marked[step.latest[u]]);
    assert forall w | w in ups :: CompletedAt(marked[step.latest[w]]) in times;
    assert forall w | w in ups :: CompletedAt(marked[step.latest[w]]) == CompletedAt(tasks[step.latest[w]]);
  }

  /** The trigger `f` was created by the pass of step `k`, when its job was enabled, directly
      downstream of a task of the batch, and due. */
  ghost predicate TriggeredAt(states: seq<State>, steps: seq<Step>, k: nat, f: Firing)
    requires |states| == |steps| + 1
  {
    && k < |steps| && steps[k].Pass? && f in steps[k].created && f.job in steps[k].enabled
    && BatchReaches(steps[k].edges, states[k].tasks, steps[k].batch, f.job)
    && DueNow(steps[k].edges, states[k].tasks, steps[k].latest, f.job)
  }

  /** In every run no trigger is recorded but for a job that was enabled and due at its pass. */
  lemma {:induction false} TriggersAreDue(states: seq<State>, steps: seq<Step>, i: nat, f: Firing)
    requires Run(states, steps) && i < |states| && f in states[i].triggers
    ensures exists k: nat :: k < i && TriggeredAt(states, steps, k, f)
  {
    if i > 0 {
      var b := i - 1;
      assert Follows(states[b], steps[b], states[i]);
      if f in states[b].triggers {
        TriggersAreDue(states, steps, b, f);
      } else {
        hide DueNow, BatchReaches;
        PassTriggersExactly(states[b], steps[b], states[i], f.job);
        assert TriggeredAt(states, steps, b, f);
      }
    }
  }
}
