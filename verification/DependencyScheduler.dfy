/** The dependency scheduler's pass, as the program runs it. */
module DependencyScheduling {
  import opened Tasks
  import opened Graph
  import opened Chaining
  import Counting

  function Later(a: int, b: int): int {
    if a < b then b else a
  }

  ghost function Times(ups: set<JobId>, rows: map<TaskId, Row>, latest: map<JobId, TaskId>): set<int>
    requires forall u | u in ups :: u in latest && latest[u] in rows
  {
    set u | u in ups :: CompletedAt(rows[latest[u]])
  }

  function Elements(batch: seq<TaskId>): set<TaskId> {
    set t | t in batch
  }

  /** The pass has evaluated `done` and created one task for each ready job among them. */
  ghost predicate Evaluated(edges: set<Edge>, rows: map<TaskId, Row>, latest: map<JobId, TaskId>, done: set<JobId>,
                            created: seq<Firing>, first: TaskId) {
    && (forall i | 0 <= i < |created| :: created[i].task == first + i)
    && (forall i, k | 0 <= i < k < |created| :: created[i].job != created[k].job)
    && (forall f | f in created :: f.job in done && Ready(edges, rows, latest, f.job) && f.readyAt == ReadyAt(edges, rows, latest, f.job))
    && (forall d | d in done && Ready(edges, rows, latest, d) :: exists f :: f in created && f.job == d)
  }

  lemma EvaluatedNext(edges: set<Edge>, rows: map<TaskId, Row>, latest: map<JobId, TaskId>, done: set<JobId>,
                      created: seq<Firing>, first: TaskId, job: JobId)
    requires Evaluated(edges, rows, latest, done, created, first) && job !in done
    ensures !Ready(edges, rows, latest, job) ==> Evaluated(edges, rows, latest, done + {job}, created, first)
    ensures Ready(edges, rows, latest, job) ==>
      Evaluated(edges, rows, latest, done + {job}, created + [Firing(job, ReadyAt(edges, rows, latest, job), first + |created|)], first)
  {
    hide ReadyAt;
    if Ready(edges, rows, latest, job) {
      var f := Firing(job, ReadyAt(edges, rows, latest, job), first + |created|);
      var all := created + [f];
      assert f in all && forall g | g in created :: g in all;
      forall i | 0 <= i < |created|
        ensures created[i].job != job
      {
        assert created[i] in created;
      }
    }
  }

  lemma GrownNext(edges: set<Edge>, rows: map<TaskId, Row>, latest: map<JobId, TaskId>, done: set<JobId>,
                  tasks: map<TaskId, Row>, created: seq<Firing>, first: TaskId, f: Firing, now: int)
    requires Grown(rows, tasks, created, now) && Evaluated(edges, rows, latest, done, created, first)
    requires f.task == first + |created| && forall t | t in rows :: t < first
    ensures Grown(rows, tasks[f.task := NewRow(f.job, Dependency, 0, now, Origin(f.task, 0))], created + [f], now)
  {
    hide Ready, ReadyAt;
    var all := created + [f];
    assert f in all && forall g | g in created :: g in all;
    assert forall g | g in all :: g in created || g == f;
    forall g | g in created
      ensures g.task != f.task
    {
      var i :| 0 <= i < |created| && created[i] == g;
    }
  }

  lemma PassInputs(tasks: map<TaskId, Row>, batch: seq<TaskId>, latest: map<JobId, TaskId>, first: TaskId)
    requires IsBatch(tasks, Elements(batch)) && IsLatest(tasks, latest) && forall t | t in tasks :: t < first
    ensures forall t | t in batch :: t in tasks
    ensures forall j | j in latest :: latest[j] in Marked(tasks, Elements(batch))
    ensures forall t | t in Marked(tasks, Elements(batch)) :: t < first
  {
    assert forall t | t in batch :: t in Elements(batch);
  }

  lemma NothingEvaluated(edges: set<Edge>, rows: map<TaskId, Row>, latest: map<JobId, TaskId>, first: TaskId, now: int)
    ensures Evaluated(edges, rows, latest, {}, [], first) && Grown(rows, rows, [], now)
  {
  }

  /** With every candidate evaluated, the pass is complete. */
  lemma PassIsComplete(s: State, edges: set<Edge>, enabled: set<JobId>, batch: set<TaskId>, latest: map<JobId, TaskId>,
                       created: seq<Firing>, first: TaskId, s': State)
    requires IsBatch(s.tasks, batch) && IsLatest(s.tasks, latest) && forall t | t in s.tasks :: t < first
    requires Evaluated(edges, Marked(s.tasks, batch), latest, Candidates(edges, enabled, s.tasks, batch), created, first)
    requires Grown(Marked(s.tasks, batch), s'.tasks, created, s.now)
    requires s' == State(s.now, s'.tasks, s.triggers + created)
    ensures Passes(s, Pass(edges, enabled, batch, latest, created), s')
    ensures forall i | 0 <= i < |created| :: created[i].task == first + i
  {
    hide Ready, ReadyAt, IsBatch, IsLatest, Grown;
    forall f | f in created
      ensures f.task !in s.tasks
    {
      var i :| 0 <= i < |created| && created[i] == f;
    }
  }

  ghost predicate Fires(created: seq<Firing>, job: JobId) {
    exists f :: f in created && f.job == job
  }

  lemma PassMeans(s: State, step: Step, s': State)
    requires step.Pass? && Passes(s, step, s')
    ensures forall d :: Fires(step.created, d) <==>
      d in step.enabled && BatchReaches(step.edges, s.tasks, step.batch, d) && DueNow(step.edges, s.tasks, step.latest, d)
    ensures forall f | f in step.created ::
      f.task in s'.tasks && s'.tasks[f.task] == Row(f.job, Pending, Dependency, 0, None, None, None, s.now, None, false, Origin(f.task, 0))
  {
    assert Grown(Marked(s.tasks, step.batch), s'.tasks, step.created, s.now);
    hide Passes, BatchReaches, DueNow, Marked;
    forall d: JobId
      ensures Fires(step.created, d) <==> d in step.enabled && BatchReaches(step.edges, s.tasks, step.batch, d) && DueNow(step.edges, s.tasks, step.latest, d)
    {
      PassTriggersExactly(s, step, s', d);
    }
  }

  /** The session and queue client of a dependency scheduler. */
  class DependencyScheduler {
    var tasks: map<TaskId, Row>
    var nextTask: TaskId
    var normalQueue: seq<TaskId>

    constructor ()
      ensures tasks == map[] && nextTask == 0 && normalQueue == []
    {
      tasks, nextTask, normalQueue := map[], 0, [];
    }

    /** Whether all upstreams' latest tasks succeeded, and when the newest of them completed. */
    static method Readiness(edges: set<Edge>, rows: map<TaskId, Row>, latest: map<JobId, TaskId>, job: JobId)
      returns (ok: bool, readyAt: int)
      requires forall j | j in latest :: latest[j] in rows
      ensures ok <==> Upstreams(edges, job) != {} && UpstreamsSucceeded(edges, rows, latest, job)
      ensures ok ==> readyAt == ReadyAt(edges, rows, latest, job)
      ensures ok <==> (exists u :: (u, job) in edges) && forall u | (u, job) in edges :: u in latest && rows[latest[u]].status == Success
      ensures ok ==> (exists u :: (u, job) in edges && CompletedAt(rows[latest[u]]) == readyAt)
      ensures ok ==> forall u | (u, job) in edges :: CompletedAt(rows[latest[u]]) <= readyAt
    {
      UpstreamsAre(edges, job);
      var ups := Upstreams(edges, job);
      var todo := ups;
      readyAt := 0;
      while todo != {}
        invariant todo <= ups
        invariant forall u | u in ups - todo :: u in latest && rows[latest[u]].status == Success
        invariant forall u | u in ups - todo :: CompletedAt(rows[latest[u]]) <= readyAt
        invariant todo != ups ==> exists u :: u in ups - todo && CompletedAt(rows[latest[u]]) == readyAt
        decreases todo
      {
        var u :| u in todo;
        if u !in latest || rows[latest[u]].status != Success {
          return false, 0;
        }
        readyAt := if todo == ups then CompletedAt(rows[latest[u]]) else Later(readyAt, CompletedAt(rows[latest[u]]));
        todo := todo - {u};
      }
      ok := ups != {};
      if ok {
        assert readyAt in Times(ups, rows, latest);
        assert ReadyAt(edges, rows, latest, job) == Counting.Max(Times(ups, rows, latest));
      }
    }

    /** Create and send a task for the job if its upstreams are ready and it has not run since. */
    method DispatchIfReady(edges: set<Edge>, rows: map<TaskId, Row>, latest: map<JobId, TaskId>, job: JobId, now: int)
      returns (fired: bool, ghost readyAt: int)
      requires forall j | j in latest :: latest[j] in rows
      modifies this
      ensures fired <==> Ready(edges, rows, latest, job)
      ensures fired <==> DueNow(edges, rows, latest, job)
      ensures fired ==> readyAt == ReadyAt(edges, rows, latest, job)
      ensures !fired ==> tasks == old(tasks) && nextTask == old(nextTask) && normalQueue == old(normalQueue)
      ensures fired ==>
        && tasks == old(tasks)[old(nextTask) := Row(job, Pending, Dependency, 0, None, None, None, now, None, false, Origin(old(nextTask), 0))]
        && nextTask == old(nextTask) + 1 && normalQueue == old(normalQueue) + [old(nextTask)]
    {
      var ok, at := Readiness(edges, rows, latest, job);
      readyAt := at;
      if !ok {
        return false, at;
      }
      if job in latest && CompletedAt(rows[latest[job]]) >= at {
        return false, at;
      }
      var id := nextTask;
      nextTask := id + 1;
      tasks := tasks[id := NewRow(job, Dependency, 0, now, Origin(id, 0))];
      normalQueue := normalQueue + [id];
      fired := true;
    }

    /** Mark each row of the batch, one commit at a time. */
    method MarkProcessed(batch: seq<TaskId>)
      requires forall t | t in batch :: t in tasks
      modifies this`tasks
      ensures tasks == Marked(old(tasks), Elements(batch))
      ensures tasks.Keys == old(tasks).Keys
      ensures forall t | t in tasks :: tasks[t] == if t in batch then old(tasks)[t].(processed := true) else old(tasks)[t]
    {
      for i := 0 to |batch|
        invariant tasks == Marked(old(tasks), Elements(batch[..i]))
      {
        assert Elements(batch[..i + 1]) == Elements(batch[..i]) + {batch[i]};
        tasks := tasks[batch[i] := Chained(tasks[batch[i]])];
      }
      assert batch[..|batch|] == batch;
    }

    /** The enabled downstreams of the batch's jobs, each once. */
    method CollectCandidates(edges: set<Edge>, enabled: set<JobId>, batch: seq<TaskId>) returns (candidates: set<JobId>)
      requires forall t | t in batch :: t in tasks
      ensures candidates == Candidates(edges, enabled, tasks, Elements(batch))
      ensures forall d :: d in candidates <==> d in enabled && exists t :: t in batch && (tasks[t].job, d) in edges
    {
      candidates := {};
      for i := 0 to |batch|
        invariant candidates == Candidates(edges, enabled, tasks, Elements(batch[..i]))
      {
        assert Elements(batch[..i + 1]) == Elements(batch[..i]) + {batch[i]};
        candidates := candidates + set e | e in edges && e.0 == tasks[batch[i]].job && e.1 in enabled :: e.1;
      }
      assert batch[..|batch|] == batch;
    }

    /** One pass: evaluate every enabled downstream of the batch once. */
    method TriggerDependentJobs(edges: set<Edge>, enabled: set<JobId>, batch: seq<TaskId>, latest: map<JobId, TaskId>, now: int, ghost triggers: seq<Firing>)
      returns (triggered: nat, ghost created: seq<Firing>)
      requires (forall t | t in tasks :: t < nextTask)
      requires IsBatch(tasks, Elements(batch)) && IsLatest(tasks, latest)
      modifies this
      ensures Passes(State(now, old(tasks), triggers),
                     Pass(edges, enabled, Elements(batch), latest, created),
                     State(now, tasks, triggers + created))
      ensures forall d :: Fires(created, d) <==> d in enabled && BatchReaches(edges, old(tasks), Elements(batch), d) && DueNow(edges, old(tasks), latest, d)
      ensures forall f | f in created ::
        f.task in tasks && tasks[f.task] == Row(f.job, Pending, Dependency, 0, None, None, None, now, None, false, Origin(f.task, 0))
      ensures triggered == |created| && nextTask == old(nextTask) + triggered
      ensures |normalQueue| == |old(normalQueue)| + triggered && old(normalQueue) <= normalQueue
      ensures forall i | |old(normalQueue)| <= i < |normalQueue| :: normalQueue[i] == created[i - |old(normalQueue)|].task
    {
      hide IsBatch, IsLatest, Evaluated, Grown, Ready, ReadyAt, Passes, Candidates, Marked, Fires, BatchReaches, DueNow;
      PassInputs(tasks, batch, latest, nextTask);
      ghost var before, first, sent := tasks, nextTask, normalQueue;
      var candidates := CollectCandidates(edges, enabled, batch);
      MarkProcessed(batch);
      var rows := tasks;
      triggered, created := 0, [];
      var todo := candidates;
      NothingEvaluated(edges, rows, latest, first, now);
      assert candidates - todo == {};
      while todo != {}
        invariant todo <= candidates
        invariant triggered == |created| && nextTask == first + triggered
        invariant Evaluated(edges, rows, latest, candidates - todo, created, first)
        invariant Grown(rows, tasks, created, now)
        invariant |normalQueue| == |sent| + triggered && sent <= normalQueue
        invariant forall i | |sent| <= i < |normalQueue| :: normalQueue[i] == first + i - |sent|
        decreases todo
      {
        var job :| job in todo;
        EvaluatedNext(edges, rows, latest, candidates - todo, created, first, job);
        assert candidates - (todo - {job}) == candidates - todo + {job};
        todo := todo - {job};
        ghost var standing := tasks;
        var fired, at := DispatchIfReady(edges, rows, latest, job, now);
        if fired {
          GrownNext(edges, rows, latest, candidates - todo - {job}, standing, created, first, Firing(job, at, first + triggered), now);
          created := created + [Firing(job, at, first + triggered)];
          triggered := triggered + 1;
        }
      }
      assert candidates - todo == candidates;
      PassIsComplete(State(now, before, triggers), edges, enabled, Elements(batch), latest, created, first, State(now, tasks, triggers + created));
      PassMeans(State(now, before, triggers), Pass(edges, enabled, Elements(batch), latest, created), State(now, tasks, triggers + created));
    }
  }
}
