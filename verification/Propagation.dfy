/** Bounded propagation: how many dependency tasks a finite number of external runs can cause
    on a fixed acyclic graph. */
module Propagation {
  import opened Tasks
  import opened Graph
  import opened Chaining
  import Counting

  ghost function Successes(s: State, j: JobId): set<TaskId> {
    set t | t in s.tasks && s.tasks[t].job == j && s.tasks[t].status == Success
  }

  /** Processed successes of the given jobs. */
  ghost function ProcessedOf(s: State, jobs: set<JobId>): set<TaskId> {
    set t | t in s.tasks && s.tasks[t].job in jobs && s.tasks[t].processed
  }

  /** Runs of a job that are not retries. */
  ghost function Originating(s: State, j: JobId): set<TaskId> {
    set t | t in s.tasks && s.tasks[t].job == j && s.tasks[t].origin.task == t
  }

  ghost function Triggered(s: State, j: JobId): set<TaskId> {
    set f | f in s.triggers && f.job == j :: f.task
  }

  /** Originating runs that no dependency caused. */
  ghost function External(s: State, j: JobId): set<TaskId> {
    Originating(s, j) - Triggered(s, j)
  }

  // ---- Each originating run yields at most one success ----

  ghost predicate OneLive(s: State) {
    && (forall t | t in s.tasks ::
          var o := s.tasks[t].origin.task;
          o in s.tasks && s.tasks[o].job == s.tasks[t].job && s.tasks[o].origin.task == o)
    && (forall t, u | t in s.tasks && u in s.tasks && t != u && s.tasks[t].origin.task == s.tasks[u].origin.task ::
          s.tasks[t].status == Failed || s.tasks[u].status == Failed)
  }

  lemma OneSuccessPerOrigin(s: State, j: JobId)
    requires OneLive(s)
    ensures |Successes(s, j)| <= |Originating(s, j)|
  {
    var origin := (t: TaskId) => if t in s.tasks then s.tasks[t].origin.task else t;
    Counting.InjectiveInto(Successes(s, j), origin, Originating(s, j));
  }

  // ---- Triggers are paid for by processed successes ----

  ghost predicate Paid(s: State, edges: set<Edge>) {
    forall j :: |Triggered(s, j)| <= |ProcessedOf(s, Upstreams(edges, j))|
  }

  /** A pass that triggers `j` processes at least one more success of its upstreams. */
  lemma PassPays(s: State, step: Step, s': State, j: JobId)
    requires step.Pass? && Passes(s, step, s')
    requires |Triggered(s, j)| <= |ProcessedOf(s, Upstreams(step.edges, j))|
    ensures |Triggered(s', j)| <= |ProcessedOf(s', Upstreams(step.edges, j))|
  {
    hide Passes;
    var ups := Upstreams(step.edges, j);
    PassProcesses(s, step, s', ups);
    PassAppends(s, step, s');
    if f :| f in step.created && f.job == j {
      TriggeredByOne(s, step, s', f);
      var t := SourceOf(s, step, s', f);
      Counting.SubsetSize(ProcessedOf(s, ups) + {t}, ProcessedOf(s', ups));
    } else {
      assert Triggered(s', j) == Triggered(s, j);
      Counting.SubsetSize(ProcessedOf(s, ups), ProcessedOf(s', ups));
    }
  }

  /** A firing goes back to a success in the batch of one of its upstreams. */
  lemma SourceOf(s: State, step: Step, s': State, f: Firing) returns (t: TaskId)
    requires step.Pass? && Passes(s, step, s') && f in step.created
    ensures t in step.batch && t in s.tasks && s.tasks[t].job in Upstreams(step.edges, f.job)
  {
    assert f.job in Candidates(step.edges, step.enabled, s.tasks, step.batch);
    hide Passes;
    var u, e :| u in step.batch && u in s.tasks && e in step.edges && e.0 == s.tasks[u].job && e.1 in step.enabled && e.1 == f.job;
    t := u;
  }

  lemma PassProcesses(s: State, step: Step, s': State, jobs: set<JobId>)
    requires step.Pass? && Passes(s, step, s')
    ensures ProcessedOf(s, jobs) <= ProcessedOf(s', jobs)
    ensures forall t | t in step.batch && t in s.tasks && s.tasks[t].job in jobs :: t in ProcessedOf(s', jobs) && t !in ProcessedOf(s, jobs)
  {
    PassMarks(s, step, s');
    hide Passes;
  }

  lemma PassMarks(s: State, step: Step, s': State)
    requires step.Pass? && Passes(s, step, s')
    ensures forall t | t in s.tasks :: t in s'.tasks && s'.tasks[t] == if t in step.batch then Chained(s.tasks[t]) else s.tasks[t]
    ensures forall t | t in step.batch && t in s.tasks :: !s.tasks[t].processed
  {
    hide PassFires, IsLatest;
    forall t | t in s.tasks
      ensures t in s'.tasks && s'.tasks[t] == if t in step.batch then Chained(s.tasks[t]) else s.tasks[t]
    {
      assert t in Marked(s.tasks, step.batch);
    }
  }

  lemma TriggeredByOne(s: State, step: Step, s': State, f: Firing)
    requires step.Pass? && Passes(s, step, s') && f in step.created
    ensures |Triggered(s', f.job)| <= |Triggered(s, f.job)| + 1
  {
    forall g | g in s'.triggers && g.job == f.job
      ensures g in s.triggers || g == f
    {
      assert g in s.triggers || g in step.created;
      if g in step.created {
        var i :| 0 <= i < |step.created| && step.created[i] == g;
        var k :| 0 <= k < |step.created| && step.created[k] == f;
        assert i == k;
      }
    }
    Counting.SubsetSize(Triggered(s', f.job), Triggered(s, f.job) + {f.task});
  }

  lemma StepPays(s: State, step: Step, s': State, edges: set<Edge>)
    requires Timely(s) && Follows(s, step, s') && Paid(s, edges) && (step.Pass? ==> step.edges == edges)
    ensures Paid(s', edges)
  {
    forall j: JobId
      ensures |Triggered(s', j)| <= |ProcessedOf(s', Upstreams(edges, j))|
    {
      if step.Pass? {
        PassPays(s, step, s', j);
      } else {
        assert Triggered(s', j) == Triggered(s, j);
        assert ProcessedOf(s, Upstreams(edges, j)) <= ProcessedOf(s', Upstreams(edges, j));
        Counting.SubsetSize(ProcessedOf(s, Upstreams(edges, j)), ProcessedOf(s', Upstreams(edges, j)));
      }
    }
  }

  lemma PassKeepsOneLive(s: State, step: Step, s': State)
    requires OneLive(s) && step.Pass? && Passes(s, step, s')
    ensures OneLive(s')
  {
    hide IsBatch, IsLatest;
    forall t | t in s'.tasks
      ensures t in s.tasks || s'.tasks[t].origin.task == t
      ensures t in s.tasks ==> s'.tasks[t].origin == s.tasks[t].origin && s'.tasks[t].job == s.tasks[t].job && s'.tasks[t].status == s.tasks[t].status
    {
      if t !in s.tasks {
        var f :| f in step.created && f.task == t;
      }
    }
    hide PassFires, Grown;
    assert forall t | t in s.tasks :: t in s'.tasks;
  }

  lemma StepKeepsOneLive(s: State, step: Step, s': State)
    requires OneLive(s) && Follows(s, step, s')
    ensures OneLive(s')
  {
    if step.Pass? {
      PassKeepsOneLive(s, step, s');
    }
  }

  ghost predicate FixedGraph(steps: seq<Step>, edges: set<Edge>) {
    forall i | 0 <= i < |steps| && steps[i].Pass? :: steps[i].edges == edges
  }

  lemma {:induction false} RunsStayPaid(states: seq<State>, steps: seq<Step>, edges: set<Edge>, i: nat)
    requires Run(states, steps) && FixedGraph(steps, edges) && i < |states|
    ensures Paid(states[i], edges) && OneLive(states[i]) && Timely(states[i]) && Recorded(states[i])
  {
    RunsKeepRows(states, steps, i);
    if i > 0 {
      RunsStayPaid(states, steps, edges, i - 1);
      assert Follows(states[i - 1], steps[i - 1], states[i]);
      hide Paid, OneLive, Timely, Recorded, Follows;
      StepPays(states[i - 1], steps[i - 1], states[i], edges);
      StepKeepsOneLive(states[i - 1], steps[i - 1], states[i]);
    } else {
      forall j: JobId
        ensures Triggered(states[0], j) == {}
      {
      }
    }
  }

  // ---- The bound, by recursion on topological rank ----

  /** A job originates at most its external runs plus one run per bounded upstream success. */
  ghost function Bound(edges: set<Edge>, external: JobId -> nat, j: JobId): nat
    requires Acyclic(edges)
    decreases |Ancestors(edges, j)|, |Upstreams(edges, j)| + 1
  {
    external(j) + BoundOf(edges, external, j, Upstreams(edges, j))
  }

  ghost function BoundOf(edges: set<Edge>, external: JobId -> nat, j: JobId, ups: set<JobId>): nat
    requires Acyclic(edges) && ups <= Upstreams(edges, j)
    decreases |Ancestors(edges, j)|, |ups|
  {
    if ups == {} then 0
    else
      var u :| u in ups;
      UpstreamRank(edges, u, j);
      Bound(edges, external, u) + BoundOf(edges, external, j, ups - {u})
  }

  lemma {:induction false} OriginatingBounded(s: State, edges: set<Edge>, external: JobId -> nat, j: JobId)
    requires Acyclic(edges) && Paid(s, edges) && OneLive(s) && Timely(s)
    requires forall k :: |External(s, k)| <= external(k)
    ensures |Originating(s, j)| <= Bound(edges, external, j)
    decreases |Ancestors(edges, j)|, |Upstreams(edges, j)| + 1
  {
    ProcessedBounded(s, edges, external, j, Upstreams(edges, j));
    assert Originating(s, j) <= External(s, j) + Triggered(s, j);
    Counting.SubsetSize(Originating(s, j), External(s, j) + Triggered(s, j));
    assert |Triggered(s, j)| <= |ProcessedOf(s, Upstreams(edges, j))|;
  }

  lemma {:induction false} ProcessedBounded(s: State, edges: set<Edge>, external: JobId -> nat, j: JobId, ups: set<JobId>)
    requires Acyclic(edges) && ups <= Upstreams(edges, j) && Paid(s, edges) && OneLive(s) && Timely(s)
    requires forall k :: |External(s, k)| <= external(k)
    ensures |ProcessedOf(s, ups)| <= BoundOf(edges, external, j, ups)
    decreases |Ancestors(edges, j)|, |ups|
  {
    if ups == {} {
      assert ProcessedOf(s, ups) == {};
    } else {
      var u :| u in ups && BoundOf(edges, external, j, ups) == Bound(edges, external, u) + BoundOf(edges, external, j, ups - {u});
      UpstreamRank(edges, u, j);
      OriginatingBounded(s, edges, external, u);
      ProcessedBounded(s, edges, external, j, ups - {u});
      OneSuccessPerOrigin(s, u);
      assert ProcessedOf(s, {u}) <= Successes(s, u);
      Counting.SubsetSize(ProcessedOf(s, {u}), Successes(s, u));
      assert ProcessedOf(s, ups) == ProcessedOf(s, {u}) + ProcessedOf(s, ups - {u});
    }
  }

  /** In every run on a fixed acyclic graph: a job's dependency triggers never exceed the
      processed successes of its direct upstreams, and all its originating runs together
      stay within the bound that its and its ancestors' external runs give. */
  lemma BoundedPropagation(states: seq<State>, steps: seq<Step>, edges: set<Edge>, external: JobId -> nat, i: nat, j: JobId)
    requires Run(states, steps) && FixedGraph(steps, edges) && Acyclic(edges) && i < |states|
    requires forall k :: |External(states[i], k)| <= external(k)
    ensures |Triggered(states[i], j)| <= |ProcessedOf(states[i], Upstreams(edges, j))|
    ensures |Triggered(states[i], j)| <= |Originating(states[i], j)| <= Bound(edges, external, j)
  {
    RunsStayPaid(states, steps, edges, i);
    OriginatingBounded(states[i], edges, external, j);
    assert Triggered(states[i], j) <= Originating(states[i], j);
    Counting.SubsetSize(Triggered(states[i], j), Originating(states[i], j));
  }
}
