/** The cron scheduler: an in-memory heap and cache over the jobs table. */
module Cron {
  import opened Tasks

  const EPSILON := 1
  const SYNC_OVERLAP := 10_000
  const SECOND := 1000

  /** A row of the jobs table with job_type 'scheduled'. */
  datatype Job = Job(enabled: bool, cron: string, nextFire: int, forbid: bool, updatedAt: int)

  datatype Entry = Entry(at: int, job: JobId)

  /** The three fields of a CronScheduler. */
  datatype View = View(heap: seq<Entry>, cache: map<JobId, Job>, cursor: Option<int>)

  const Empty := View([], map[], None)

  /** next_cron_time: strictly after its base, on a whole second. */
  type CronRule = (string, int) -> int

  ghost predicate CronLaw(next: CronRule) {
    forall c, base {:trigger next(c, base)} :: next(c, base) > base && next(c, base) % SECOND == 0
  }

  /** Tuple order of heap entries. */
  predicate Before(e: Entry, f: Entry) {
    e.at < f.at || (e.at == f.at && e.job < f.job)
  }

  function Abs(x: int): nat {
    if x < 0 then -x else x
  }

  // ---- The index invariant ----

  ghost predicate OnGrid(v: View) {
    && (forall e | e in v.heap :: e.at % SECOND == 0)
    && (forall j | j in v.cache :: v.cache[j].nextFire % SECOND == 0)
  }

  /** Every cached job's next firing is in the heap. */
  ghost predicate Covered(v: View) {
    forall j | j in v.cache :: Entry(v.cache[j].nextFire, j) in v.heap
  }

  ghost predicate Indexed(v: View) {
    OnGrid(v) && Covered(v)
  }

  // ---- Sync ----

  predicate NewFiring(cache: map<JobId, Job>, id: JobId, at: int) {
    id !in cache || Abs(cache[id].nextFire - at) > EPSILON
  }

  function SyncRow(v: View, id: JobId, job: Job): View {
    if !job.enabled then v.(cache := v.cache - {id})
    else v.(heap := if NewFiring(v.cache, id, job.nextFire) then v.heap + [Entry(job.nextFire, id)] else v.heap,
            cache := v.cache[id := job])
  }

  function SyncRows(v: View, rows: seq<(JobId, Job)>): View {
    if rows == [] then v
    else
      var last := rows[|rows| - 1];
      SyncRow(SyncRows(v, rows[..|rows| - 1]), last.0, last.1)
  }

  /** `rows` is a result of list_updated_since: each matching row once, in any order. */
  ghost predicate Lists(rows: seq<(JobId, Job)>, jobs: map<JobId, Job>, since: Option<int>) {
    && (forall i, k | 0 <= i < k < |rows| :: rows[i].0 != rows[k].0)
    && (forall j, job :: (j, job) in rows <==> j in jobs && jobs[j] == job && (since.Some? ==> job.updatedAt >= since.value))
  }

  // ---- Dispatch ----

  function Advance(next: CronRule, now: int, job: Job): Job {
    job.(nextFire := next(job.cron, now), updatedAt := now)
  }

  /** The firings a scan of `jobs` finds due. */
  ghost function Due(jobs: map<JobId, Job>, now: int): set<Entry> {
    set j | j in jobs && jobs[j].nextFire <= now :: Entry(jobs[j].nextFire, j)
  }

  ghost function Advanced(jobs: map<JobId, Job>, next: CronRule, now: int): map<JobId, Job> {
    map j | j in jobs :: if jobs[j].nextFire <= now then Advance(next, now, jobs[j]) else jobs[j]
  }

  ghost predicate InOrder(fired: seq<Entry>) {
    forall i, k | 0 <= i < k < |fired| :: Before(fired[i], fired[k])
  }

  /** One pass fired exactly the cached jobs due at `now`, each once and in firing-time
      order, moved each past `now`, and left the index intact. */
  ghost predicate Dispatched(v: View, v': View, next: CronRule, now: int, fired: seq<Entry>) {
    && InOrder(fired)
    && (set e | e in fired) == Due(v.cache, now)
    && v'.cache == Advanced(v.cache, next, now)
    && v'.cursor == v.cursor
    && Indexed(v')
  }

  predicate HasRunning(tasks: map<TaskId, Row>, job: JobId) {
    exists t | t in tasks :: tasks[t].job == job && tasks[t].status == Running
  }

  /** The tables and the queue a scheduler writes. */
  datatype Tables = Tables(jobs: map<JobId, Job>, tasks: map<TaskId, Row>, nextTask: TaskId, queue: seq<TaskId>)

  predicate Skipped(t: Tables, id: JobId, job: Job) {
    job.forbid && HasRunning(t.tasks, id)
  }

  /** Commit the advanced schedule, then create and send a task unless forbidden. */
  function FireOne(t: Tables, id: JobId, job: Job, next: CronRule, now: int): Tables {
    var updated := t.(jobs := t.jobs[id := Advance(next, now, job)]);
    if Skipped(t, id, job) then updated
    else updated.(tasks := t.tasks[t.nextTask := NewRow(id, Scheduled, 0, now, Origin(t.nextTask, 0))],
                  nextTask := t.nextTask + 1,
                  queue := t.queue + [t.nextTask])
  }

  ghost function FireAll(t: Tables, cache: map<JobId, Job>, fired: seq<Entry>, next: CronRule, now: int): Tables
    requires forall e | e in fired :: e.job in cache
  {
    if fired == [] then t
    else
      var e := fired[|fired| - 1];
      FireOne(FireAll(t, cache, fired[..|fired| - 1], next, now), e.job, cache[e.job], next, now)
  }

  ghost predicate FreshIds(t: Tables) {
    forall id | id in t.tasks :: id < t.nextTask
  }

  /** The firings that the concurrency policy lets through. */
  ghost function Allowed(fired: seq<Entry>, cache: map<JobId, Job>, t: Tables): seq<Entry>
    requires forall e | e in fired :: e.job in cache
  {
    if fired == [] then []
    else
      var rest, e := Allowed(fired[..|fired| - 1], cache, t), fired[|fired| - 1];
      if Skipped(t, e.job, cache[e.job]) then rest else rest + [e]
  }

  lemma FireAllNext(t: Tables, cache: map<JobId, Job>, fired: seq<Entry>, e: Entry, next: CronRule, now: int)
    requires (forall f | f in fired :: f.job in cache) && e.job in cache
    ensures forall f | f in fired + [e] :: f.job in cache
    ensures FireAll(t, cache, fired + [e], next, now) == FireOne(FireAll(t, cache, fired, next, now), e.job, cache[e.job], next, now)
    ensures Allowed(fired + [e], cache, t) == Allowed(fired, cache, t) + if Skipped(t, e.job, cache[e.job]) then [] else [e]
  {
    assert (fired + [e])[..|fired|] == fired;
  }

  /** Exactly the fired jobs are rescheduled: their cached copies, advanced, are written back. */
  ghost predicate Rescheduled(jobs: map<JobId, Job>, jobs': map<JobId, Job>, cache: map<JobId, Job>, fired: seq<Entry>, next: CronRule, now: int) {
    && (forall j :: j in jobs' <==> j in jobs || Fires(fired, j))
    && (forall j | j in jobs' && j in cache && Fires(fired, j) :: jobs'[j] == Advance(next, now, cache[j]))
    && (forall j | j in jobs' && j in jobs && !Fires(fired, j) :: jobs'[j] == jobs[j])
  }

  ghost predicate Fires(fired: seq<Entry>, job: JobId) {
    exists e :: e in fired && e.job == job
  }

  /** Exactly the chosen firings get one pending task each, sent once and in order. */
  ghost predicate Enqueued(t: Tables, t': Tables, chosen: seq<Entry>, now: int) {
    && t'.nextTask == t.nextTask + |chosen|
    && |t'.queue| == |t.queue| + |chosen| && t.queue <= t'.queue
    && (forall i | |t.queue| <= i < |t'.queue| :: t'.queue[i] == t.nextTask + i - |t.queue|)
    && (forall id :: id in t'.tasks <==> id in t.tasks || t.nextTask <= id < t'.nextTask)
    && (forall id | id in t.tasks && id in t'.tasks :: t'.tasks[id] == t.tasks[id])
    && (forall id | t.nextTask <= id < t'.nextTask && id in t'.tasks ::
          t'.tasks[id] == NewRow(chosen[id - t.nextTask].job, Scheduled, 0, now, Origin(id, 0)))
  }

  lemma RunningSame(t: Tables, t': Tables, chosen: seq<Entry>, now: int, job: JobId)
    requires FreshIds(t) && Enqueued(t, t', chosen, now)
    ensures HasRunning(t'.tasks, job) <==> HasRunning(t.tasks, job)
  {
    if HasRunning(t.tasks, job) {
      var id :| id in t.tasks && t.tasks[id].job == job && t.tasks[id].status == Running;
      assert id in t'.tasks && t'.tasks[id] == t.tasks[id];
    }
    if HasRunning(t'.tasks, job) {
      var id :| id in t'.tasks && t'.tasks[id].job == job && t'.tasks[id].status == Running;
      assert id in t.tasks && t'.tasks[id] == t.tasks[id];
    }
  }

  lemma EnqueueNext(t: Tables, t1: Tables, t2: Tables, chosen: seq<Entry>, e: Entry, now: int)
    requires FreshIds(t) && Enqueued(t, t1, chosen, now)
    requires t2.nextTask == t1.nextTask + 1 && t2.queue == t1.queue + [t1.nextTask]
    requires t2.tasks == t1.tasks[t1.nextTask := NewRow(e.job, Scheduled, 0, now, Origin(t1.nextTask, 0))]
    ensures Enqueued(t, t2, chosen + [e], now)
  {
  }

  /** What a pass writes, whatever it fires. */
  lemma {:induction false} FireAllEnqueues(t: Tables, cache: map<JobId, Job>, fired: seq<Entry>, next: CronRule, now: int)
    requires FreshIds(t) && forall e | e in fired :: e.job in cache
    ensures Enqueued(t, FireAll(t, cache, fired, next, now), Allowed(fired, cache, t), now)
  {
    if fired != [] {
      hide Enqueued, HasRunning, FreshIds;
      var rest, e := fired[..|fired| - 1], fired[|fired| - 1];
      var t1 := FireAll(t, cache, rest, next, now);
      FireAllEnqueues(t, cache, rest, next, now);
      RunningSame(t, t1, Allowed(rest, cache, t), now, e.job);
      if Skipped(t, e.job, cache[e.job]) {
        EnqueuedJobs(t, t1, FireAll(t, cache, fired, next, now), Allowed(rest, cache, t), now);
      } else {
        EnqueueNext(t, t1, FireAll(t, cache, fired, next, now), Allowed(rest, cache, t), e, now);
      }
    }
  }

  lemma EnqueuedJobs(t: Tables, t1: Tables, t2: Tables, chosen: seq<Entry>, now: int)
    requires Enqueued(t, t1, chosen, now) && t2 == t1.(jobs := t2.jobs)
    ensures Enqueued(t, t2, chosen, now)
  {
  }

  lemma {:induction false} FireAllReschedules(t: Tables, cache: map<JobId, Job>, fired: seq<Entry>, next: CronRule, now: int)
    requires forall e | e in fired :: e.job in cache
    ensures Rescheduled(t.jobs, FireAll(t, cache, fired, next, now).jobs, cache, fired, next, now)
  {
    if fired != [] {
      var rest, e := fired[..|fired| - 1], fired[|fired| - 1];
      FireAllReschedules(t, cache, rest, next, now);
      RescheduleNext(t.jobs, FireAll(t, cache, rest, next, now).jobs, FireAll(t, cache, fired, next, now).jobs, cache, rest, e, next, now);
      assert rest + [e] == fired;
    }
  }

  lemma RescheduleNext(jobs: map<JobId, Job>, jobs1: map<JobId, Job>, jobs2: map<JobId, Job>, cache: map<JobId, Job>, fired: seq<Entry>, e: Entry, next: CronRule, now: int)
    requires Rescheduled(jobs, jobs1, cache, fired, next, now) && e.job in cache
    requires jobs2 == jobs1[e.job := Advance(next, now, cache[e.job])]
    ensures Rescheduled(jobs, jobs2, cache, fired + [e], next, now)
  {
    var all := fired + [e];
    assert e in all;
    forall j: JobId
      ensures Fires(all, j) <==> Fires(fired, j) || j == e.job
    {
      if Fires(fired, j) {
        var f :| f in fired && f.job == j;
        assert f in all;
      }
    }
  }

  /** How many entries are due: falls on every iteration of a pass. */
  ghost function DueCount(heap: seq<Entry>, now: int): nat {
    if heap == [] then 0
    else DueCount(heap[..|heap| - 1], now) + if heap[|heap| - 1].at <= now then 1 else 0
  }

  lemma {:induction false} DueCountConcat(a: seq<Entry>, b: seq<Entry>, now: int)
    ensures DueCount(a + b, now) == DueCount(a, now) + DueCount(b, now)
  {
    if b == [] {
      assert a + b == a;
    } else {
      DueCountConcat(a, b[..|b| - 1], now);
      assert (a + b)[..|a + b| - 1] == a + b[..|b| - 1];
    }
  }

  lemma PopReducesDue(heap: seq<Entry>, k: nat, now: int)
    requires k < |heap| && heap[k].at <= now
    ensures DueCount(Without(heap, k), now) == DueCount(heap, now) - 1
  {
    assert heap == heap[..k] + ([heap[k]] + heap[k + 1..]);
    DueCountConcat(heap[..k], [heap[k]] + heap[k + 1..], now);
    DueCountConcat([heap[k]], heap[k + 1..], now);
    assert DueCount([heap[k]], now) == 1;
    DueCountConcat(heap[..k], heap[k + 1..], now);
  }

  predicate IsLeast(heap: seq<Entry>, k: nat)
    requires k < |heap|
  {
    forall f | f in heap :: !Before(f, heap[k])
  }

  lemma {:induction false} LeastExists(heap: seq<Entry>) returns (k: nat)
    requires heap != []
    ensures k < |heap| && IsLeast(heap, k)
  {
    var n := |heap| - 1;
    if n == 0 {
      k := 0;
    } else {
      k := LeastExists(heap[..n]);
      assert forall f | f in heap :: f in heap[..n] || f == heap[n];
      if Before(heap[n], heap[k]) {
        k := n;
      }
    }
  }

  // ---- What the concurrency policy means ----

  /** No running task of the job, or a policy that allows one more. */
  ghost predicate MayRun(tasks: map<TaskId, Row>, id: JobId, job: Job) {
    !job.forbid || forall t | t in tasks && tasks[t].job == id :: tasks[t].status != Running
  }

  /** `t'` has a new pending scheduled task `n` for job `j`. */
  ghost predicate NewTaskFor(t: Tables, t': Tables, n: TaskId, j: JobId, now: int) {
    && n !in t.tasks && n in t'.tasks
    && t'.tasks[n] == Row(j, Pending, Scheduled, 0, None, None, None, now, None, false, Origin(n, 0))
  }

  /** A due cached job gets a new task exactly if it may run. */
  ghost predicate ServesDue(cache: map<JobId, Job>, t: Tables, t': Tables, now: int) {
    forall j | j in cache && cache[j].nextFire <= now :: (exists n :: NewTaskFor(t, t', n, j, now)) <==> MayRun(t.tasks, j, cache[j])
  }

  ghost predicate IsNew(t: Tables, t': Tables, n: TaskId) {
    n in t'.tasks && n !in t.tasks
  }

  /** Only due cached jobs get new tasks, one each, and no other row is changed. */
  ghost predicate AddsOnlyDue(cache: map<JobId, Job>, t: Tables, t': Tables, now: int) {
    && (forall n | IsNew(t, t', n) ::
          t'.tasks[n].job in cache && cache[t'.tasks[n].job].nextFire <= now && NewTaskFor(t, t', n, t'.tasks[n].job, now))
    && (forall j, n, m | NewTaskFor(t, t', n, j, now) && NewTaskFor(t, t', m, j, now) :: n == m)
    && (forall n | n in t.tasks :: n in t'.tasks && t'.tasks[n] == t.tasks[n])
  }

  /** The new tasks are sent, each once, and nothing else is. */
  ghost predicate SendsNew(t: Tables, t': Tables) {
    && t.queue <= t'.queue
    && (forall n :: n in t'.queue[|t.queue|..] <==> IsNew(t, t', n))
    && (forall i, k | |t.queue| <= i < k < |t'.queue| :: t'.queue[i] != t'.queue[k])
  }

  ghost predicate Serves(cache: map<JobId, Job>, t: Tables, t': Tables, now: int) {
    ServesDue(cache, t, t', now) && AddsOnlyDue(cache, t, t', now) && SendsNew(t, t')
  }

  lemma {:induction false} AllowedMayRun(fired: seq<Entry>, cache: map<JobId, Job>, t: Tables)
    requires (forall e | e in fired :: e.job in cache) && forall i, k | 0 <= i < k < |fired| :: fired[i].job != fired[k].job
    ensures forall e :: e in Allowed(fired, cache, t) <==> e in fired && MayRun(t.tasks, e.job, cache[e.job])
    ensures forall i, k | 0 <= i < k < |Allowed(fired, cache, t)| :: Allowed(fired, cache, t)[i].job != Allowed(fired, cache, t)[k].job
  {
    if fired != [] {
      var rest, e := fired[..|fired| - 1], fired[|fired| - 1];
      AllowedMayRun(rest, cache, t);
      assert Skipped(t, e.job, cache[e.job]) <==> !MayRun(t.tasks, e.job, cache[e.job]);
      assert forall f :: f in fired <==> f in rest || f == e;
      forall i | 0 <= i < |Allowed(rest, cache, t)|
        ensures Allowed(rest, cache, t)[i].job != e.job
      {
        assert Allowed(rest, cache, t)[i] in rest;
      }
    }
  }

  lemma FiredOnce(fired: seq<Entry>, cache: map<JobId, Job>, now: int)
    requires InOrder(fired) && (set e | e in fired) == Due(cache, now)
    ensures forall e :: e in fired <==> e.job in cache && cache[e.job].nextFire <= now && e.at == cache[e.job].nextFire
    ensures forall i, k | 0 <= i < k < |fired| :: fired[i].job != fired[k].job && fired[i].at <= fired[k].at
  {
    forall e: Entry
      ensures e in fired <==> e.job in cache && cache[e.job].nextFire <= now && e.at == cache[e.job].nextFire
    {
      assert e in fired <==> e in Due(cache, now);
      if e.job in cache && cache[e.job].nextFire <= now && e.at == cache[e.job].nextFire {
        assert e == Entry(cache[e.job].nextFire, e.job);
      }
    }
    forall i, k | 0 <= i < k < |fired|
      ensures fired[i].job != fired[k].job && fired[i].at <= fired[k].at
    {
      assert fired[i] in fired && fired[k] in fired && Before(fired[i], fired[k]);
    }
  }

  lemma NewTasksAre(t: Tables, t': Tables, chosen: seq<Entry>, now: int, n: TaskId)
    requires FreshIds(t) && Enqueued(t, t', chosen, now)
    ensures n in t'.tasks && n !in t.tasks <==> t.nextTask <= n < t.nextTask + |chosen|
    ensures t.nextTask <= n < t.nextTask + |chosen| ==> NewTaskFor(t, t', n, chosen[n - t.nextTask].job, now)
  {
  }

  /** What the chosen firings have to be for a pass to serve the cache. */
  ghost predicate ChosenWell(cache: map<JobId, Job>, t: Tables, chosen: seq<Entry>, now: int) {
    && (forall e | e in chosen :: e.job in cache && cache[e.job].nextFire <= now && MayRun(t.tasks, e.job, cache[e.job]))
    && (forall j | j in cache && cache[j].nextFire <= now && MayRun(t.tasks, j, cache[j]) :: Entry(cache[j].nextFire, j) in chosen)
    && (forall i, k | 0 <= i < k < |chosen| :: chosen[i].job != chosen[k].job)
  }

  lemma PassServes(cache: map<JobId, Job>, t: Tables, t': Tables, fired: seq<Entry>, now: int)
    requires FreshIds(t) && InOrder(fired) && (set e | e in fired) == Due(cache, now) && forall e | e in fired :: e.job in cache
    requires Enqueued(t, t', Allowed(fired, cache, t), now)
    ensures Serves(cache, t, t', now)
  {
    hide Enqueued, FreshIds, MayRun, Serves;
    var chosen := Allowed(fired, cache, t);
    FiredOnce(fired, cache, now);
    AllowedMayRun(fired, cache, t);
    assert ChosenWell(cache, t, chosen, now);
    ChosenServes(cache, t, t', chosen, now);
  }

  lemma ChosenServes(cache: map<JobId, Job>, t: Tables, t': Tables, chosen: seq<Entry>, now: int)
    requires FreshIds(t) && Enqueued(t, t', chosen, now) && ChosenWell(cache, t, chosen, now)
    ensures Serves(cache, t, t', now)
  {
    hide Enqueued, FreshIds, MayRun, ChosenWell, NewTaskFor, AddsOnlyDue, SendsNew;
    forall j | j in cache && cache[j].nextFire <= now
      ensures (exists n :: NewTaskFor(t, t', n, j, now)) <==> MayRun(t.tasks, j, cache[j])
    {
      ServedWhenChosen(cache, t, t', chosen, now, j);
    }
    ChosenAddsOnlyDue(cache, t, t', chosen, now);
    QueueServes(t, t', chosen, now);
  }

  lemma ChosenAddsOnlyDue(cache: map<JobId, Job>, t: Tables, t': Tables, chosen: seq<Entry>, now: int)
    requires FreshIds(t) && Enqueued(t, t', chosen, now) && ChosenWell(cache, t, chosen, now)
    ensures AddsOnlyDue(cache, t, t', now)
  {
    assert forall n | n in t.tasks :: n in t'.tasks && t'.tasks[n] == t.tasks[n];
    hide Enqueued, FreshIds, ChosenWell, NewTaskFor;
    forall n | IsNew(t, t', n)
      ensures t'.tasks[n].job in cache && cache[t'.tasks[n].job].nextFire <= now && NewTaskFor(t, t', n, t'.tasks[n].job, now)
    {
      NewTaskIsChosen(cache, t, t', chosen, now, n);
    }
    forall j, n, m | NewTaskFor(t, t', n, j, now) && NewTaskFor(t, t', m, j, now)
      ensures n == m
    {
      NewTaskIsOnly(cache, t, t', chosen, now, j, n, m);
    }
  }

  lemma NewTaskIsChosen(cache: map<JobId, Job>, t: Tables, t': Tables, chosen: seq<Entry>, now: int, n: TaskId)
    requires FreshIds(t) && Enqueued(t, t', chosen, now) && ChosenWell(cache, t, chosen, now) && IsNew(t, t', n)
    ensures t'.tasks[n].job in cache && cache[t'.tasks[n].job].nextFire <= now && NewTaskFor(t, t', n, t'.tasks[n].job, now)
  {
    hide Enqueued, FreshIds, MayRun;
    NewTasksAre(t, t', chosen, now, n);
    assert chosen[n - t.nextTask] in chosen;
  }

  lemma NewTaskIsOnly(cache: map<JobId, Job>, t: Tables, t': Tables, chosen: seq<Entry>, now: int, j: JobId, n: TaskId, m: TaskId)
    requires FreshIds(t) && Enqueued(t, t', chosen, now) && ChosenWell(cache, t, chosen, now)
    requires NewTaskFor(t, t', n, j, now) && NewTaskFor(t, t', m, j, now)
    ensures n == m
  {
    hide Enqueued, FreshIds, MayRun;
    NewTasksAre(t, t', chosen, now, n);
    NewTasksAre(t, t', chosen, now, m);
    var i, k := n - t.nextTask, m - t.nextTask;
    assert chosen[i].job == j == chosen[k].job;
  }

  lemma QueueServes(t: Tables, t': Tables, chosen: seq<Entry>, now: int)
    requires FreshIds(t) && Enqueued(t, t', chosen, now)
    ensures SendsNew(t, t')
  {
    forall n: TaskId
      ensures n in t'.queue[|t.queue|..] <==> IsNew(t, t', n)
    {
      if t.nextTask <= n < t.nextTask + |chosen| {
        assert t'.queue[|t.queue|..][n - t.nextTask] == n;
      }
    }
  }

  lemma ServedWhenChosen(cache: map<JobId, Job>, t: Tables, t': Tables, chosen: seq<Entry>, now: int, j: JobId)
    requires FreshIds(t) && Enqueued(t, t', chosen, now) && ChosenWell(cache, t, chosen, now) && j in cache && cache[j].nextFire <= now
    ensures (exists n :: NewTaskFor(t, t', n, j, now)) <==> MayRun(t.tasks, j, cache[j])
  {
    hide MayRun, Enqueued, FreshIds;
    if n: TaskId :| NewTaskFor(t, t', n, j, now) {
      NewTasksAre(t, t', chosen, now, n);
      assert chosen[n - t.nextTask] in chosen;
    }
    if MayRun(t.tasks, j, cache[j]) {
      var i :| 0 <= i < |chosen| && chosen[i] == Entry(cache[j].nextFire, j);
      NewTasksAre(t, t', chosen, now, t.nextTask + i);
      assert NewTaskFor(t, t', t.nextTask + i, j, now);
    }
  }

  // ---- One pass ----

  /** A pass from `v0` has reached `v`, having fired `fired`. */
  ghost predicate Partway(v0: View, v: View, next: CronRule, now: int, fired: seq<Entry>) {
    && Indexed(v) && v.cursor == v0.cursor && v.cache.Keys == v0.cache.Keys
    && InOrder(fired) && (forall e, f | e in fired && f in v.heap :: !Before(f, e))
    && (forall e | e in fired :: e in Due(v0.cache, now))
    && (forall j | j in v0.cache ::
          v.cache[j] == if Entry(v0.cache[j].nextFire, j) in fired then Advance(next, now, v0.cache[j]) else v0.cache[j])
  }

  ghost predicate Stale(v: View, e: Entry) {
    e.job !in v.cache || Abs(v.cache[e.job].nextFire - e.at) > EPSILON
  }

  function Without(heap: seq<Entry>, k: nat): seq<Entry>
    requires k < |heap|
  {
    heap[..k] + heap[k + 1..]
  }

  lemma WithoutHolds(heap: seq<Entry>, k: nat, f: Entry)
    requires k < |heap|
    ensures f in Without(heap, k) ==> f in heap
    ensures f in heap && f != heap[k] ==> f in Without(heap, k)
  {
    if f in heap && f != heap[k] {
      var i :| 0 <= i < |heap| && heap[i] == f;
      assert f == if i < k then Without(heap, k)[i] else Without(heap, k)[i - 1];
    }
  }

  /** Dropping a stale entry changes nothing. */
  lemma DropKeeps(v0: View, v: View, next: CronRule, now: int, fired: seq<Entry>, k: nat)
    requires Partway(v0, v, next, now, fired) && k < |v.heap| && Stale(v, v.heap[k])
    ensures Partway(v0, v.(heap := Without(v.heap, k)), next, now, fired)
  {
    forall f: Entry
      ensures f in Without(v.heap, k) ==> f in v.heap
      ensures f in v.heap && f != v.heap[k] ==> f in Without(v.heap, k)
    {
      WithoutHolds(v.heap, k, f);
    }
  }

  lemma OrderExtends(fired: seq<Entry>, e: Entry)
    requires InOrder(fired) && e !in fired && forall f | f in fired :: !Before(e, f)
    ensures InOrder(fired + [e])
  {
    forall i | 0 <= i < |fired|
      ensures Before(fired[i], e)
    {
      assert fired[i] in fired;
    }
  }

  /** An entry that is due and not stale is its job's current, not yet fired firing. */
  lemma CurrentEntry(v0: View, v: View, next: CronRule, now: int, fired: seq<Entry>, e: Entry)
    requires CronLaw(next) && Partway(v0, v, next, now, fired) && e in v.heap && e.at <= now && !Stale(v, e)
    ensures e.job in v0.cache && v.cache[e.job] == v0.cache[e.job] && e.at == v0.cache[e.job].nextFire && e !in fired
  {
    assert next(v0.cache[e.job].cron, now) > now;
  }

  /** The index after firing `e`. */
  lemma FireKeepsIndex(v: View, e: Entry, k: nat, job: Job)
    requires Indexed(v) && k < |v.heap| && v.heap[k] == e && job.nextFire % SECOND == 0
    ensures Indexed(v.(heap := Without(v.heap, k) + [Entry(job.nextFire, e.job)], cache := v.cache[e.job := job]))
  {
    forall f: Entry
      ensures f in Without(v.heap, k) ==> f in v.heap
      ensures f in v.heap && f != v.heap[k] ==> f in Without(v.heap, k)
    {
      WithoutHolds(v.heap, k, f);
    }
  }

  /** Firing the least entry, when it is current and due, extends the pass by it. */
  lemma FireKeeps(v0: View, v: View, next: CronRule, now: int, fired: seq<Entry>, k: nat)
    requires CronLaw(next) && Partway(v0, v, next, now, fired)
    requires k < |v.heap| && IsLeast(v.heap, k) && v.heap[k].at <= now && !Stale(v, v.heap[k])
    ensures
      var e := v.heap[k];
      var job := Advance(next, now, v.cache[e.job]);
      && e.job in v0.cache && v.cache[e.job] == v0.cache[e.job]
      && Partway(v0, v.(heap := Without(v.heap, k) + [Entry(job.nextFire, e.job)], cache := v.cache[e.job := job]), next, now, fired + [e])
  {
    var e := v.heap[k];
    var job := Advance(next, now, v.cache[e.job]);
    assert job.nextFire > now && job.nextFire % SECOND == 0;
    CurrentEntry(v0, v, next, now, fired, e);
    FireKeepsIndex(v, e, k, job);
    OrderExtends(fired, e);
    hide Indexed, InOrder;
    forall f: Entry
      ensures f in Without(v.heap, k) ==> f in v.heap
    {
      WithoutHolds(v.heap, k, f);
    }
  }

  lemma PassStarts(v: View, t: Tables, next: CronRule, now: int)
    requires Indexed(v)
    ensures Partway(v, v, next, now, [])
    ensures FireAll(t, v.cache, [], next, now) == t && Allowed([], v.cache, t) == []
  {
  }

  /** A rescheduled entry is not due again: each re-push is strictly after `now`. */
  lemma PushIsLate(heap: seq<Entry>, next: CronRule, job: Job, now: int, id: JobId)
    requires CronLaw(next)
    ensures DueCount(heap + [Entry(next(job.cron, now), id)], now) == DueCount(heap, now)
  {
    DueCountConcat(heap, [Entry(next(job.cron, now), id)], now);
  }

  lemma PassDone(v0: View, v: View, next: CronRule, now: int, fired: seq<Entry>)
    requires Partway(v0, v, next, now, fired) && forall f | f in v.heap :: f.at > now
    ensures Dispatched(v0, v, next, now, fired)
  {
    assert forall j | j in v.cache :: Entry(v.cache[j].nextFire, j) in v.heap;
  }

  lemma DispatchedMeans(v: View, v': View, next: CronRule, now: int, fired: seq<Entry>)
    requires Dispatched(v, v', next, now, fired)
    ensures InOrder(fired) && (set e | e in fired) == Due(v.cache, now)
    ensures forall e :: e in fired <==> e.job in v.cache && v.cache[e.job].nextFire <= now && e.at == v.cache[e.job].nextFire
    ensures forall i, k | 0 <= i < k < |fired| :: fired[i].job != fired[k].job && fired[i].at <= fired[k].at
    ensures v'.cache.Keys == v.cache.Keys
    ensures forall j | j in v'.cache ::
      v'.cache[j] == if v.cache[j].nextFire <= now then v.cache[j].(nextFire := next(v.cache[j].cron, now), updatedAt := now) else v.cache[j]
  {
    FiredOnce(fired, v.cache, now);
  }

  lemma LeastIsLate(heap: seq<Entry>, k: nat, now: int)
    requires k < |heap| && IsLeast(heap, k) && heap[k].at > now
    ensures forall f | f in heap :: f.at > now
  {
  }

  /** The database session and queue client of a scheduler. */
  class Database {
    var jobs: map<JobId, Job>
    var tasks: map<TaskId, Row>
    var nextTask: TaskId
    var scheduledQueue: seq<TaskId>

    constructor ()
      ensures Value() == Tables(map[], map[], 0, [])
    {
      jobs, tasks, nextTask, scheduledQueue := map[], map[], 0, [];
    }

    function Value(): Tables
      reads this
    {
      Tables(jobs, tasks, nextTask, scheduledQueue)
    }
  }

  class CronScheduler {
    var heap: seq<Entry>
    var cache: map<JobId, Job>
    var cursor: Option<int>

    constructor ()
      ensures Fields() == Empty
    {
      heap, cache, cursor := [], map[], None;
    }

    function Fields(): View
      reads this
    {
      View(heap, cache, cursor)
    }

    /** Fold the listed rows, in order, into heap and cache and rewind the cursor. */
    method SyncJobs(rows: seq<(JobId, Job)>, startedAt: int)
      modifies this
      ensures Fields() == SyncRows(old(Fields()), rows).(cursor := Some(startedAt - 10_000))
    {
      ghost var before := Fields();
      for i := 0 to |rows|
        invariant Fields() == SyncRows(before, rows[..i])
      {
        var (id, job) := rows[i];
        assert rows[..i + 1][..i] == rows[..i];
        if !job.enabled {
          cache := cache - {id};
        } else {
          if NewFiring(cache, id, job.nextFire) {
            heap := heap + [Entry(job.nextFire, id)];
          }
          cache := cache[id := job];
        }
      }
      assert rows[..|rows|] == rows;
      cursor := Some(startedAt - SYNC_OVERLAP);
    }

    /** One firing: the row moves to its next time; a task follows unless Skipped. */
    method Dispatch(db: Database, id: JobId, job: Job, next: CronRule, now: int) returns (advanced: Job, fired: nat)
      modifies db
      ensures db.Value() == FireOne(old(db.Value()), id, job, next, now)
      ensures fired == if Skipped(old(db.Value()), id, job) then 0 else 1
      ensures advanced == job.(nextFire := next(job.cron, now), updatedAt := now) && db.jobs == old(db.jobs)[id := advanced]
      ensures fired == 1 <==> !job.forbid || forall t | t in old(db.tasks) && old(db.tasks)[t].job == id :: old(db.tasks)[t].status != Running
      ensures fired == 0 ==> db.tasks == old(db.tasks) && db.scheduledQueue == old(db.scheduledQueue)
      ensures fired == 1 ==>
        && db.tasks == old(db.tasks)[old(db.nextTask) := Row(id, Pending, Scheduled, 0, None, None, None, now, None, false, Origin(old(db.nextTask), 0))]
        && db.scheduledQueue == old(db.scheduledQueue) + [old(db.nextTask)]
    {
      advanced := job.(nextFire := next(job.cron, now), updatedAt := now);
      db.jobs := db.jobs[id := advanced];
      if job.forbid && HasRunning(db.tasks, id) {
        return advanced, 0;
      }
      var task := db.nextTask;
      db.nextTask := task + 1;
      db.tasks := db.tasks[task := NewRow(id, Scheduled, 0, now, Origin(task, 0))];
      db.scheduledQueue := db.scheduledQueue + [task];
      fired := 1;
    }

    /** One pass over the heap fires exactly what a scan of the cache finds due. */
    method DispatchDueJobs(db: Database, next: CronRule, now: int) returns (dispatched: nat, ghost fired: seq<Entry>)
      requires Indexed(Fields()) && CronLaw(next) && FreshIds(db.Value())
      modifies this, db
      ensures Dispatched(old(Fields()), Fields(), next, now, fired)
      ensures forall e | e in fired :: e.job in old(cache)
      ensures Rescheduled(old(db.jobs), db.jobs, old(cache), fired, next, now)
      ensures Enqueued(old(db.Value()), db.Value(), Allowed(fired, old(cache), old(db.Value())), now)
      ensures dispatched == |Allowed(fired, old(cache), old(db.Value()))|
      ensures forall e :: e in fired <==> e.job in old(cache) && old(cache)[e.job].nextFire <= now && e.at == old(cache)[e.job].nextFire
      ensures forall i, k | 0 <= i < k < |fired| :: fired[i].job != fired[k].job && fired[i].at <= fired[k].at
      ensures cache.Keys == old(cache).Keys
      ensures forall j | j in cache ::
        cache[j] == if old(cache)[j].nextFire <= now then old(cache)[j].(nextFire := next(old(cache)[j].cron, now), updatedAt := now) else old(cache)[j]
      ensures Serves(old(cache), old(db.Value()), db.Value(), now)
    {
      hide Indexed, Partway, Dispatched, Enqueued, Rescheduled, FireAll, Allowed, CronLaw, DueCount, IsLeast, Serves;
      dispatched, fired := 0, [];
      ghost var v0, t0 := Fields(), db.Value();
      PassStarts(v0, t0, next, now);
      while heap != []
        invariant Partway(v0, Fields(), next, now, fired)
        invariant forall e | e in fired :: e.job in v0.cache
        invariant db.Value() == FireAll(t0, v0.cache, fired, next, now)
        invariant dispatched == |Allowed(fired, v0.cache, t0)|
        decreases DueCount(heap, now)
      {
        ghost var least := LeastExists(heap);
        var k: nat :| k < |heap| && IsLeast(heap, k);
        var e := heap[k];
        if e.at > now {
          LeastIsLate(heap, k, now);
          break;
        }
        PopReducesDue(heap, k, now);
        ghost var v := Fields();
        heap := Without(heap, k);
        if e.job !in cache {
          DropKeeps(v0, v, next, now, fired, k);
          continue;
        }
        var job := cache[e.job];
        if Abs(job.nextFire - e.at) > EPSILON {
          DropKeeps(v0, v, next, now, fired, k);
          continue;
        }
        FireKeeps(v0, v, next, now, fired, k);
        FireAllNext(t0, v0.cache, fired, e, next, now);
        FireAllEnqueues(t0, v0.cache, fired, next, now);
        RunningSame(t0, db.Value(), Allowed(fired, v0.cache, t0), now, e.job);
        var advanced, n := Dispatch(db, e.job, job, next, now);
        cache := cache[e.job := advanced];
        PushIsLate(heap, next, job, now, e.job);
        heap := heap + [Entry(advanced.nextFire, e.job)];
        fired := fired + [e];
        dispatched := dispatched + n;
      }
      PassDone(v0, Fields(), next, now, fired);
      FireAllEnqueues(t0, v0.cache, fired, next, now);
      FireAllReschedules(t0, v0.cache, fired, next, now);
      DispatchedMeans(v0, Fields(), next, now, fired);
      PassServes(v0.cache, t0, db.Value(), fired, now);
    }
  }
}
