/** Several scheduler replicas over one jobs table, with leadership moving between cycles
    and API writes in between. */
module CronReplicas {
  import opened Tasks
  import opened Cron

  // ---- Incremental sync ----

  lemma {:induction false} SyncKeepsIndex(v: View, rows: seq<(JobId, Job)>)
    requires Indexed(v) && forall r | r in rows :: r.1.nextFire % SECOND == 0
    ensures Indexed(SyncRows(v, rows))
  {
    if rows != [] {
      var rest, last := rows[..|rows| - 1], rows[|rows| - 1];
      SyncKeepsIndex(v, rest);
      SyncRowKeepsIndex(SyncRows(v, rest), last.0, last.1);
    }
  }

  /** The 1 ms tolerance is harmless only because firings lie on whole seconds: a firing
      that is not new is the very one in the heap. */
  lemma SyncRowKeepsIndex(v: View, id: JobId, job: Job)
    requires Indexed(v) && job.nextFire % SECOND == 0
    ensures Indexed(SyncRow(v, id, job))
  {
    assert !NewFiring(v.cache, id, job.nextFire) ==> Entry(job.nextFire, id) in v.heap;
    assert forall e | e in v.heap :: e in v.heap + [Entry(job.nextFire, id)];
  }

  /** One row of a sync: a disabled job leaves the cache; any other is cached as read, and pushed
      unless it was cached with a firing at most 1 ms away. */
  lemma SyncRowMeans(v: View, id: JobId, job: Job)
    ensures !job.enabled ==> SyncRow(v, id, job) == v.(cache := v.cache - {id})
    ensures job.enabled ==> SyncRow(v, id, job).cache == v.cache[id := job] && SyncRow(v, id, job).cursor == v.cursor
    ensures job.enabled ==>
      SyncRow(v, id, job).heap == if id in v.cache && -1 <= v.cache[id].nextFire - job.nextFire <= 1 then v.heap else v.heap + [Entry(job.nextFire, id)]
  {
  }

  ghost predicate Listed(rows: seq<(JobId, Job)>, id: JobId) {
    exists i :: 0 <= i < |rows| && rows[i].0 == id
  }

  ghost predicate Distinct(rows: seq<(JobId, Job)>) {
    forall i, k | 0 <= i < k < |rows| :: rows[i].0 != rows[k].0
  }

  /** What a sync makes of the cache, job by job. */
  lemma {:induction false} SyncedCache(v: View, rows: seq<(JobId, Job)>, id: JobId)
    requires Distinct(rows)
    ensures SyncRows(v, rows).cursor == v.cursor
    ensures !Listed(rows, id) ==>
      && (id in SyncRows(v, rows).cache <==> id in v.cache)
      && (id in v.cache ==> SyncRows(v, rows).cache[id] == v.cache[id])
    ensures forall job | (id, job) in rows ::
      && (id in SyncRows(v, rows).cache <==> job.enabled)
      && (job.enabled ==> SyncRows(v, rows).cache[id] == job)
  {
    if rows != [] {
      var n := |rows| - 1;
      var rest := rows[..n];
      SyncedCache(v, rest, id);
      if rows[n].0 == id {
        assert forall job | (id, job) in rows :: job == rows[n].1;
        assert Listed(rows, id);
      } else {
        assert forall job | (id, job) in rows :: (id, job) in rest;
        assert Listed(rest, id) ==> Listed(rows, id) by {
          if Listed(rest, id) {
            var i :| 0 <= i < |rest| && rest[i].0 == id;
            assert rows[i].0 == id;
          }
        }
      }
    }
  }

  /** The cache a full rescan would build. */
  ghost function FullCache(jobs: map<JobId, Job>): map<JobId, Job> {
    map j | j in jobs && jobs[j].enabled :: jobs[j]
  }

  ghost predicate Agrees(cache: map<JobId, Job>, jobs: map<JobId, Job>, j: JobId)
    requires j in jobs
  {
    (j in cache <==> jobs[j].enabled) && (j in cache ==> cache[j] == jobs[j])
  }

  /** Whatever the cache has missed was stamped at or after the cursor. */
  ghost predicate UpToCursor(v: View, jobs: map<JobId, Job>) {
    && v.cache.Keys <= jobs.Keys
    && (forall j | j in jobs && v.cursor.Some? && jobs[j].updatedAt < v.cursor.value :: Agrees(v.cache, jobs, j))
  }

  /** An incremental sync leaves exactly the cache of a full rescan. */
  lemma SyncIsFull(v: View, rows: seq<(JobId, Job)>, jobs: map<JobId, Job>)
    requires UpToCursor(v, jobs) && Lists(rows, jobs, v.cursor)
    ensures SyncRows(v, rows).cache == FullCache(jobs)
  {
    var cache := SyncRows(v, rows).cache;
    forall j: JobId
      ensures j in cache <==> j in FullCache(jobs)
      ensures j in cache ==> cache[j] == FullCache(jobs)[j]
    {
      SyncedCache(v, rows, j);
      if Listed(rows, j) {
        var i :| 0 <= i < |rows| && rows[i].0 == j;
        assert (j, rows[i].1) in rows;
      } else if j in jobs {
        assert (j, jobs[j]) !in rows;
        assert Agrees(v.cache, jobs, j);
      }
    }
  }

  /** Syncing again without a change in between pushes and changes nothing. */
  lemma {:induction false} RepeatedSyncIsIdle(v: View, rows: seq<(JobId, Job)>, jobs: map<JobId, Job>)
    requires v.cache == FullCache(jobs) && forall r | r in rows :: r.0 in jobs && r.1 == jobs[r.0]
    ensures SyncRows(v, rows) == v
  {
    if rows != [] {
      RepeatedSyncIsIdle(v, rows[..|rows| - 1], jobs);
      var last := rows[|rows| - 1];
      assert last in rows;
      assert v.cache - {last.0} == v.cache || last.1.enabled;
      assert last.1.enabled ==> v.cache[last.0 := last.1] == v.cache;
    }
  }

  // ---- The system ----

  type ReplicaId = nat

  datatype System = System(now: int, jobs: map<JobId, Job>, replicas: map<ReplicaId, View>, log: seq<Entry>)

  datatype Step =
    | Tick(dt: nat)
    | Start(replica: ReplicaId)
    | Write(id: JobId, job: Job, base: int)
    | Cycle(replica: ReplicaId, rows: seq<(JobId, Job)>, at: int, fired: seq<Entry>)

  /** An API write of a scheduled job becomes visible now: a create or cron change computes
      the next firing from `base`, other changes keep it. It was stamped at most the sync
      overlap ago. */
  ghost predicate Writable(next: CronRule, s: System, id: JobId, job: Job, base: int) {
    && s.now - SYNC_OVERLAP <= job.updatedAt <= s.now
    && (|| job.nextFire == next(job.cron, base)
        || KeepsSchedule(s, id, job))
  }

  /** The write leaves the schedule alone. */
  ghost predicate KeepsSchedule(s: System, id: JobId, job: Job) {
    id in s.jobs && job.nextFire == s.jobs[id].nextFire && job.cron == s.jobs[id].cron
  }

  /** The clock that a cron change read is not before the job's last dispatched firing. */
  ghost predicate Current(s: System, id: JobId, base: int) {
    forall e | e in s.log && e.job == id :: e.at <= base
  }

  /** The write does not bring back a firing that was already dispatched. */
  ghost predicate Forward(s: System, id: JobId, job: Job) {
    forall e | e in s.log && e.job == id :: e.at < job.nextFire
  }

  ghost function Synced(s: System, step: Step): View
    requires step.Cycle? && step.replica in s.replicas
  {
    SyncRows(s.replicas[step.replica], step.rows).(cursor := Some(s.now - SYNC_OVERLAP))
  }

  /** One leader cycle: sync at `now`, then dispatch at `at`. */
  ghost predicate Cycles(next: CronRule, s: System, step: Step, s': System)
    requires step.Cycle?
  {
    && step.replica in s.replicas && step.replica in s'.replicas
    && s.now <= step.at == s'.now
    && Lists(step.rows, s.jobs, s.replicas[step.replica].cursor)
    && var synced := Synced(s, step);
    && Dispatched(synced, s'.replicas[step.replica], next, step.at, step.fired)
    && Rescheduled(s.jobs, s'.jobs, synced.cache, step.fired, next, step.at)
    && s'.replicas == s.replicas[step.replica := s'.replicas[step.replica]]
    && s'.log == s.log + step.fired
  }

  ghost predicate Follows(next: CronRule, s: System, step: Step, s': System) {
    match step
    case Tick(dt) => s' == s.(now := s.now + dt)
    case Start(r) => s' == s.(replicas := s.replicas[r := Empty])
    case Write(id, job, base) => Writable(next, s, id, job, base) && s' == s.(jobs := s.jobs[id := job])
    case Cycle(_, _, _, _) => Cycles(next, s, step, s')
  }

  ghost predicate Run(next: CronRule, states: seq<System>, steps: seq<Step>) {
    && |states| == |steps| + 1
    && states[0].jobs == map[] && states[0].replicas == map[] && states[0].log == []
    && forall i {:trigger steps[i]} | 0 <= i < |steps| :: Follows(next, states[i], steps[i], states[i + 1])
  }

  // ---- Invariants ----

  ghost predicate Caches(s: System) {
    && (forall j | j in s.jobs :: s.jobs[j].nextFire % SECOND == 0)
    && (forall r | r in s.replicas ::
          && Indexed(s.replicas[r])
          && UpToCursor(s.replicas[r], s.jobs)
          && (s.replicas[r].cursor.Some? ==> s.replicas[r].cursor.value <= s.now - SYNC_OVERLAP))
  }

  /** Dispatched firings lie in the past and before their job's next firing. */
  ghost predicate Fired(s: System) {
    forall e | e in s.log :: e.job in s.jobs && e.at <= s.now && e.at < s.jobs[e.job].nextFire
  }

  /** The firing times dispatched for each job are strictly increasing. */
  ghost predicate Increasing(log: seq<Entry>) {
    forall i, k | 0 <= i < k < |log| && log[i].job == log[k].job :: log[i].at < log[k].at
  }

  /** A write is re-read by every replica, however old its heap: its stamp is not before
      any cursor. */
  lemma WriteKeepsCaches(next: CronRule, s: System, id: JobId, job: Job, base: int)
    requires CronLaw(next) && Caches(s) && Writable(next, s, id, job, base)
    ensures Caches(s.(jobs := s.jobs[id := job]))
  {
    var s' := s.(jobs := s.jobs[id := job]);
    assert job.nextFire % SECOND == 0;
    forall r | r in s'.replicas
      ensures UpToCursor(s'.replicas[r], s'.jobs)
    {
      assert UpToCursor(s.replicas[r], s.jobs);
      assert forall j | j in s.jobs && j != id && Agrees(s.replicas[r].cache, s.jobs, j) :: Agrees(s'.replicas[r].cache, s'.jobs, j);
    }
  }

  /** A cycle works on exactly the enabled jobs of the table, so it fires exactly what a
      scan of the whole table would. */
  lemma CycleScansTable(next: CronRule, s: System, step: Step, s': System)
    requires Caches(s) && step.Cycle? && Cycles(next, s, step, s')
    ensures Synced(s, step).cache == FullCache(s.jobs) && Indexed(Synced(s, step))
    ensures (set e | e in step.fired) == Due(FullCache(s.jobs), step.at)
  {
    var v := s.replicas[step.replica];
    SyncIsFull(v, step.rows, s.jobs);
    forall r | r in step.rows
      ensures r.1.nextFire % SECOND == 0
    {
      assert (r.0, r.1) in step.rows;
    }
    SyncKeepsIndex(v, step.rows);
  }

  /** After the pass, table and cache agree again. */
  lemma FiredAgree(next: CronRule, s: System, step: Step, s': System, j: JobId)
    requires step.Cycle? && Cycles(next, s, step, s') && j in s'.jobs
    requires Synced(s, step).cache == FullCache(s.jobs)
    requires (set e | e in step.fired) == Due(FullCache(s.jobs), step.at)
    ensures j in s.jobs
    ensures Fires(step.fired, j) <==> s.jobs[j].enabled && s.jobs[j].nextFire <= step.at
    ensures s'.jobs[j] == if Fires(step.fired, j) then Advance(next, step.at, s.jobs[j]) else s.jobs[j]
    ensures Agrees(s'.replicas[step.replica].cache, s'.jobs, j)
  {
    var full := FullCache(s.jobs);
    if Fires(step.fired, j) {
      var e :| e in step.fired && e.job == j;
      assert e in Due(full, step.at);
    }
    if j in full && full[j].nextFire <= step.at {
      assert Entry(full[j].nextFire, j) in Due(full, step.at);
      assert Entry(full[j].nextFire, j) in step.fired;
    }
  }

  lemma CycleKeepsCaches(next: CronRule, s: System, step: Step, s': System)
    requires CronLaw(next) && Caches(s) && step.Cycle? && Cycles(next, s, step, s')
    ensures Caches(s')
  {
    CycleScansTable(next, s, step, s');
    forall j | j in s'.jobs
      ensures j in s.jobs && Agrees(s'.replicas[step.replica].cache, s'.jobs, j)
      ensures s'.jobs[j].nextFire % SECOND == 0
      ensures s'.jobs[j] == s.jobs[j] || s'.jobs[j].updatedAt == step.at
    {
      FiredAgree(next, s, step, s', j);
    }
    forall r | r in s'.replicas
      ensures Indexed(s'.replicas[r]) && UpToCursor(s'.replicas[r], s'.jobs)
      ensures s'.replicas[r].cursor.Some? ==> s'.replicas[r].cursor.value <= s'.now - SYNC_OVERLAP
    {
      hide Indexed, Lists;
      if r != step.replica {
        assert UpToCursor(s.replicas[r], s.jobs);
      }
    }
  }

  lemma LogExtends(log: seq<Entry>, fired: seq<Entry>, jobs: map<JobId, Job>)
    requires Increasing(log) && InOrder(fired)
    requires forall e | e in log :: e.job in jobs && e.at < jobs[e.job].nextFire
    requires forall e | e in fired :: e.job in jobs && e.at == jobs[e.job].nextFire
    ensures Increasing(log + fired)
  {
    var all := log + fired;
    forall i, k | 0 <= i < k < |fired|
      ensures fired[i].job != fired[k].job
    {
      assert fired[i] in fired && fired[k] in fired && Before(fired[i], fired[k]);
    }
    forall i, k | 0 <= i < |log| && 0 <= k < |fired| && log[i].job == fired[k].job
      ensures log[i].at < fired[k].at
    {
      assert log[i] in log && fired[k] in fired;
    }
  }

  lemma CycleKeepsFired(next: CronRule, s: System, step: Step, s': System)
    requires CronLaw(next) && Caches(s) && Fired(s) && Increasing(s.log) && step.Cycle? && Cycles(next, s, step, s')
    ensures Fired(s') && Increasing(s'.log)
  {
    CycleScansTable(next, s, step, s');
    forall e | e in step.fired
      ensures e.job in s.jobs && e.at == s.jobs[e.job].nextFire && e.at <= step.at
    {
      assert e in Due(FullCache(s.jobs), step.at);
    }
    LogExtends(s.log, step.fired, s.jobs);
    forall e | e in s'.log
      ensures e.job in s'.jobs && e.at <= s'.now && e.at < s'.jobs[e.job].nextFire
    {
      assert e in s.log || e in step.fired;
      FiredAgree(next, s, step, s', e.job);
      assert next(s.jobs[e.job].cron, step.at) > step.at;
    }
  }

  lemma StepKeepsCaches(next: CronRule, s: System, step: Step, s': System)
    requires CronLaw(next) && Caches(s) && Follows(next, s, step, s')
    ensures Caches(s')
  {
    match step
    case Tick(_) =>
    case Start(_) =>
    case Write(id, job, base) => WriteKeepsCaches(next, s, id, job, base);
    case Cycle(_, _, _, _) => CycleKeepsCaches(next, s, step, s');
  }

  lemma {:induction false} RunsKeepCaches(next: CronRule, states: seq<System>, steps: seq<Step>, i: nat)
    requires CronLaw(next) && Run(next, states, steps) && i < |states|
    ensures Caches(states[i])
  {
    if i > 0 {
      RunsKeepCaches(next, states, steps, i - 1);
      assert Follows(next, states[i - 1], steps[i - 1], states[i]);
      hide Caches;
      StepKeepsCaches(next, states[i - 1], steps[i - 1], states[i]);
    }
  }

  /** An API write keeps its place in the order of firings. */
  ghost predicate InTime(s: System, step: Step) {
    step.Write? ==> KeepsSchedule(s, step.id, step.job) || Current(s, step.id, step.base) || Forward(s, step.id, step.job)
  }

  ghost predicate AllInTime(states: seq<System>, steps: seq<Step>, n: nat)
    requires n <= |steps| <= |states|
  {
    forall i | 0 <= i < n :: InTime(states[i], steps[i])
  }

  /** A firing computed from a clock that is not before the last dispatched one, or left alone,
      is still to come. */
  lemma CurrentIsForward(next: CronRule, s: System, id: JobId, job: Job, base: int)
    requires CronLaw(next) && Fired(s) && Writable(next, s, id, job, base) && (KeepsSchedule(s, id, job) || Current(s, id, base))
    ensures Forward(s, id, job)
  {
    assert next(job.cron, base) > base;
  }

  lemma StepKeepsFired(next: CronRule, s: System, step: Step, s': System)
    requires CronLaw(next) && Caches(s) && Fired(s) && Increasing(s.log) && Follows(next, s, step, s') && InTime(s, step)
    ensures Fired(s') && Increasing(s'.log)
  {
    match step
    case Tick(_) =>
    case Start(_) =>
    case Write(id, job, base) =>
      if !Forward(s, id, job) {
        CurrentIsForward(next, s, id, job, base);
      }
    case Cycle(_, _, _, _) => CycleKeepsFired(next, s, step, s');
  }

  lemma {:induction false} RunsKeepFired(next: CronRule, states: seq<System>, steps: seq<Step>, i: nat)
    requires CronLaw(next) && Run(next, states, steps) && i < |states| && AllInTime(states, steps, i)
    ensures Fired(states[i]) && Increasing(states[i].log)
  {
    if i > 0 {
      RunsKeepFired(next, states, steps, i - 1);
      RunsKeepCaches(next, states, steps, i - 1);
      assert Follows(next, states[i - 1], steps[i - 1], states[i]);
      assert InTime(states[i - 1], steps[i - 1]);
      hide Caches, Fired, Increasing, InTime;
      StepKeepsFired(next, states[i - 1], steps[i - 1], states[i]);
    }
  }

  // ---- Theorems ----

  /** Cron at-most-once: over every run whose API writes are in time, the firings dispatched
      for a job strictly increase. */
  lemma AtMostOnce(next: CronRule, states: seq<System>, steps: seq<Step>, i: nat)
    requires CronLaw(next) && Run(next, states, steps) && i < |states| && AllInTime(states, steps, i)
    ensures Increasing(states[i].log)
  {
    RunsKeepFired(next, states, steps, i);
  }

  /** However old the leader's heap, every cycle of every run syncs its cache to the cache
      of a full rescan, and fires exactly the enabled jobs of the table that are due. */
  lemma EveryCycleIsFullScan(next: CronRule, states: seq<System>, steps: seq<Step>, i: nat)
    requires CronLaw(next) && Run(next, states, steps) && i < |steps| && steps[i].Cycle?
    ensures Cycles(next, states[i], steps[i], states[i + 1])
    ensures Synced(states[i], steps[i]).cache == FullCache(states[i].jobs)
    ensures (set e | e in steps[i].fired) == Due(FullCache(states[i].jobs), steps[i].at)
  {
    RunsKeepCaches(next, states, steps, i);
    assert Follows(next, states[i], steps[i], states[i + 1]);
    CycleScansTable(next, states[i], steps[i], states[i + 1]);
  }

  /** A write that is not Forward repeats or reverses a firing in the very next cycle; one
      that is never does. (A cron change reads the clock before it commits; a dispatch in
      between makes it backward.) */
  lemma ForwardIsExact(next: CronRule, s: System, id: JobId, job: Job, base: int, step: Step, s': System)
    requires CronLaw(next) && Caches(s) && Fired(s) && Increasing(s.log)
    requires Writable(next, s, id, job, base) && job.enabled
    requires step.Cycle? && Cycles(next, s.(jobs := s.jobs[id := job]), step, s')
    ensures Increasing(s'.log) <==> Forward(s, id, job)
  {
    var written := s.(jobs := s.jobs[id := job]);
    WriteKeepsCaches(next, s, id, job, base);
    if Forward(s, id, job) {
      CycleKeepsFired(next, written, step, s');
    } else {
      var e :| e in s.log && e.job == id && e.at >= job.nextFire;
      assert e.at <= s.now;
      hide Caches, Fired, Increasing, Writable;
      BackwardFires(next, written, id, e, step, s');
    }
  }

  lemma BackwardFires(next: CronRule, s: System, id: JobId, e: Entry, step: Step, s': System)
    requires Caches(s) && step.Cycle? && Cycles(next, s, step, s') && id in s.jobs && s.jobs[id].enabled
    requires e in s.log && e.job == id && s.jobs[id].nextFire <= e.at <= s.now
    ensures !Increasing(s'.log)
  {
    CycleScansTable(next, s, step, s');
    assert s'.log == s.log + step.fired && s.now <= step.at;
    hide Caches, Cycles, Indexed, Synced;
    var again := Entry(s.jobs[id].nextFire, id);
    assert FullCache(s.jobs)[id] == s.jobs[id];
    assert again in Due(FullCache(s.jobs), step.at);
    assert again in step.fired;
    var i :| 0 <= i < |s.log| && s.log[i] == e;
    var k :| 0 <= k < |step.fired| && step.fired[k] == again;
    assert s'.log[i] == e && s'.log[|s.log| + k] == again;
  }

  /** next_cron_time returns the least firing after its base. */
  ghost predicate CronLeast(next: CronRule) {
    forall c, base, other {:trigger next(c, base), next(c, other)} :: base < next(c, other) ==> next(c, base) <= next(c, other)
  }

  /** If the cron expression itself fires at the job's last dispatched time, as it does when a
      write does not change it, the clock read alone decides: forward exactly when current. */
  lemma CurrentIsExact(next: CronRule, s: System, id: JobId, job: Job, base: int, last: Entry, other: int)
    requires CronLaw(next) && CronLeast(next) && job.nextFire == next(job.cron, base)
    requires last in s.log && last.job == id && last.at == next(job.cron, other)
    requires forall e | e in s.log && e.job == id :: e.at <= last.at
    ensures Forward(s, id, job) <==> Current(s, id, base)
  {
    assert next(job.cron, base) > base;
    assert base < last.at ==> next(job.cron, base) <= last.at;
  }

  /** A cron change reads the clock at most `lag` before it becomes visible. */
  ghost predicate Prompt(s: System, step: Step, lag: nat) {
    step.Write? ==> KeepsSchedule(s, step.id, step.job) || s.now - lag <= step.base
  }

  ghost predicate WithinLag(states: seq<System>, steps: seq<Step>, lag: nat) {
    |steps| <= |states| && forall i {:trigger steps[i]} | 0 <= i < |steps| :: Prompt(states[i], steps[i], lag)
  }

  /** A write that reads the clock when it becomes visible is not before any dispatched firing. */
  lemma PromptIsInTime(s: System, step: Step)
    requires Fired(s) && Prompt(s, step, 0)
    ensures InTime(s, step)
  {
  }

  /** In all runs with such writes, no firing is dispatched twice or out of order. */
  ghost predicate FiresOnce(next: CronRule, lag: nat) {
    forall states: seq<System>, steps: seq<Step>, i: nat :: Run(next, states, steps) && WithinLag(states, steps, lag) && i < |states| ==> Increasing(states[i].log)
  }

  lemma {:induction false} NoLagIsInTime(next: CronRule, states: seq<System>, steps: seq<Step>, i: nat)
    requires CronLaw(next) && Run(next, states, steps) && WithinLag(states, steps, 0) && i <= |steps|
    ensures |states| == |steps| + 1 && AllInTime(states, steps, i)
  {
    RunLengths(next, states, steps);
    if i > 0 {
      hide Run, Fired, Increasing, CronLaw, WithinLag, AllInTime;
      NoLagIsInTime(next, states, steps, i - 1);
      RunsKeepFired(next, states, steps, i - 1);
      NextInTime(states, steps, i);
    }
  }

  lemma NextInTime(states: seq<System>, steps: seq<Step>, i: nat)
    requires WithinLag(states, steps, 0) && 0 < i <= |steps| && AllInTime(states, steps, i - 1) && Fired(states[i - 1])
    ensures AllInTime(states, steps, i)
  {
    hide Fired, Prompt, InTime;
    assert Prompt(states[i - 1], steps[i - 1], 0);
    PromptIsInTime(states[i - 1], steps[i - 1]);
  }

  /** For every cron rule: cron fires at most once, in all runs, exactly when a cron change
      reads the clock at the moment it becomes visible. One millisecond of lag is too much. */
  lemma OnceExactlyWithoutLag(next: CronRule, lag: nat)
    requires CronLaw(next) && CronLeast(next)
    ensures FiresOnce(next, lag) <==> lag == 0
  {
    hide Run, Increasing, AllInTime, CronLaw, CronLeast, Prompt;
    if lag == 0 {
      forall states: seq<System>, steps: seq<Step>, i: nat | Run(next, states, steps) && WithinLag(states, steps, 0) && i < |states|
        ensures Increasing(states[i].log)
      {
        RunLengths(next, states, steps);
        NoLagIsInTime(next, states, steps, i);
        AtMostOnce(next, states, steps, i);
      }
    } else {
      var states, steps := LateWriteRepeats(next, "* * * * *");
      RunLengths(next, states, steps);
      WithinMore(states, steps, 1, lag);
    }
  }

  lemma WithinMore(states: seq<System>, steps: seq<Step>, lag: nat, more: nat)
    requires WithinLag(states, steps, lag) && lag <= more
    ensures WithinLag(states, steps, more)
  {
    forall i | 0 <= i < |steps|
      ensures Prompt(states[i], steps[i], more)
    {
      assert Prompt(states[i], steps[i], lag);
    }
  }

  lemma RunLengths(next: CronRule, states: seq<System>, steps: seq<Step>)
    requires Run(next, states, steps)
    ensures |states| == |steps| + 1
  {
  }

  ghost function Advancing(job: Job, next: CronRule, now: int): View {
    View([Entry(next(job.cron, now), 0)], map[0 := Advance(next, now, job)], Some(now - SYNC_OVERLAP))
  }

  /** One leader cycle of replica 0 at time `now` over the one job 0, due now. */
  lemma OneJobCycle(next: CronRule, s: System, job: Job) returns (step: Step, s': System)
    requires CronLaw(next) && s.jobs == map[0 := job] && job.enabled && job.nextFire == s.now && job.updatedAt == s.now
    requires 0 in s.replicas && s.replicas[0].cache.Keys <= {0} && (s.replicas[0].cursor.Some? ==> s.replicas[0].cursor.value <= s.now)
    ensures step.Cycle? && Cycles(next, s, step, s')
    ensures s' == System(s.now, map[0 := Advance(next, s.now, job)], s.replicas[0 := Advancing(job, next, s.now)], s.log + [Entry(s.now, 0)])
  {
    var now, rows, fired := s.now, [(0, job)], [Entry(s.now, 0)];
    step := Cycle(0, rows, now, fired);
    s' := System(now, map[0 := Advance(next, now, job)], s.replicas[0 := Advancing(job, next, now)], s.log + fired);
    assert next(job.cron, now) % SECOND == 0;
    var v, synced := s.replicas[0], Synced(s, step);
    assert rows[..|rows| - 1] == [] && SyncRows(v, []) == v;
    assert SyncRows(v, rows) == SyncRow(v, 0, job);
    assert synced.cache == map[0 := job];
    assert 0 in synced.cache && synced.cache[0] == job;
    assert Entry(synced.cache[0].nextFire, 0) in Due(synced.cache, now);
    assert Due(synced.cache, now) == {Entry(now, 0)};
    assert (set e | e in fired) == {Entry(now, 0)};
    assert Fires(fired, 0) by { assert fired[0].job == 0; }
    assert Advanced(synced.cache, next, now) == map[0 := Advance(next, now, job)];
  }

  lemma Extend(next: CronRule, states: seq<System>, steps: seq<Step>, step: Step, s': System) returns (states': seq<System>, steps': seq<Step>)
    requires Run(next, states, steps) && WithinLag(states, steps, 1)
    requires Follows(next, states[|steps|], step, s') && Prompt(states[|steps|], step, 1)
    ensures states' == states + [s'] && steps' == steps + [step]
    ensures Run(next, states', steps') && WithinLag(states', steps', 1)
  {
    hide Follows, Prompt;
    states', steps' := states + [s'], steps + [step];
    forall i | 0 <= i < |steps'|
      ensures Follows(next, states'[i], steps'[i], states'[i + 1]) && Prompt(states'[i], steps'[i], 1)
    {
      assert i < |steps| ==> Follows(next, states[i], steps[i], states[i + 1]) && Prompt(states[i], steps[i], 1);
    }
  }

  /** Job 0 has fired once, at its next firing after time 0. */
  lemma FiredOnceRun(next: CronRule, cron: string, job: Job) returns (states: seq<System>, steps: seq<Step>)
    requires CronLaw(next) && job == Job(true, cron, next(cron, 0), false, next(cron, 0)) && next(cron, job.nextFire - 1) == job.nextFire
    ensures Run(next, states, steps) && |steps| == 3 && WithinLag(states, steps, 1)
    ensures var at := job.nextFire; states[3] == System(at, map[0 := Advance(next, at, job)], map[0 := Advancing(job, next, at)], [Entry(at, 0)])
  {
    var at := job.nextFire;
    var s0 := System(at, map[], map[], []);
    states, steps := [s0], [];
    var s1 := s0.(replicas := map[0 := Empty]);
    states, steps := Extend(next, states, steps, Start(0), s1);
    var s2 := s1.(jobs := map[0 := job]);
    states, steps := Extend(next, states, steps, Write(0, job, at - 1), s2);
    var first, s3 := OneJobCycle(next, s2, job);
    hide Cycles, CronLaw;
    states, steps := Extend(next, states, steps, first, s3);
  }

  /** For every cron rule and expression, a cron change that read the clock one millisecond
      before a firing, and became visible after its dispatch, has the same firing dispatched
      again: all other conditions of a run are met. */
  lemma LateWriteRepeats(next: CronRule, cron: string) returns (states: seq<System>, steps: seq<Step>)
    requires CronLaw(next) && CronLeast(next)
    ensures Run(next, states, steps) && |steps| == 5 && steps[3].Write?
    ensures var at := next(cron, 0); states[5].log == [Entry(at, 0), Entry(at, 0)] && steps[3].base == at - 1
    ensures !InTime(states[3], steps[3]) && WithinLag(states, steps, 1) && !Increasing(states[5].log)
  {
    var at := next(cron, 0);
    var job := Job(true, cron, at, false, at);
    assert next(cron, at - 1) == at by {
      assert at - 1 < next(cron, 0);
    }
    assert next(cron, at) > at;
    var states3, steps3 := FiredOnceRun(next, cron, job);
    var s3 := states3[3];
    var s4 := s3.(jobs := map[0 := job]);
    assert s3.jobs[0 := job] == s4.jobs;
    var states4, steps4 := Extend(next, states3, steps3, Write(0, job, at - 1), s4);
    var second, s5 := OneJobCycle(next, s4, job);
    hide Cycles, CronLaw, CronLeast;
    states, steps := Extend(next, states4, steps4, second, s5);
    hide Run, Follows, WithinLag;
    assert Entry(at, 0) in s3.log;
    assert s5.log[0].job == s5.log[1].job;
  }

  /** The overlap is exact: after a full sync, a change becomes known to the next one exactly
      when its stamp is not before the rewound cursor. */
  lemma OverlapIsExact(v: View, jobs: map<JobId, Job>, id: JobId, job: Job, rows: seq<(JobId, Job)>)
    requires v.cache == FullCache(jobs) && v.cursor.Some?
    requires !Agrees(v.cache, jobs[id := job], id) && Lists(rows, jobs[id := job], v.cursor)
    ensures SyncRows(v, rows).cache == FullCache(jobs[id := job]) <==> job.updatedAt >= v.cursor.value
  {
    var jobs' := jobs[id := job];
    if job.updatedAt >= v.cursor.value {
      forall j | j in jobs' && jobs'[j].updatedAt < v.cursor.value
        ensures Agrees(v.cache, jobs', j)
      {
      }
      SyncIsFull(v, rows, jobs');
    } else {
      forall i | 0 <= i < |rows|
        ensures rows[i].0 != id
      {
        assert (rows[i].0, rows[i].1) in rows;
      }
      SyncedCache(v, rows, id);
      assert !Agrees(SyncRows(v, rows).cache, jobs', id);
      assert Agrees(FullCache(jobs'), jobs', id);
    }
  }

  /** The scheduler's own code takes a Cycle step of the system. */
  method LeaderCycle(scheduler: CronScheduler, db: Database, rows: seq<(JobId, Job)>, next: CronRule,
                     startedAt: int, now: int, ghost s: System, ghost r: ReplicaId)
    returns (dispatched: nat, ghost s': System, ghost step: Step)
    requires CronLaw(next) && Caches(s) && FreshIds(db.Value())
    requires r in s.replicas && scheduler.Fields() == s.replicas[r] && db.jobs == s.jobs
    requires s.now == startedAt <= now && Lists(rows, db.jobs, scheduler.cursor)
    modifies scheduler, db
    ensures step.Cycle? && step.replica == r && Cycles(next, s, step, s')
    ensures scheduler.Fields() == s'.replicas[r] && db.jobs == s'.jobs
    ensures forall e | e in step.fired :: e.job in Synced(s, step).cache
    ensures dispatched == |Allowed(step.fired, Synced(s, step).cache, old(db.Value()))|
    ensures Enqueued(old(db.Value()), db.Value(), Allowed(step.fired, Synced(s, step).cache, old(db.Value())), now)
    ensures Serves(FullCache(old(db.jobs)), old(db.Value()), db.Value(), now)
  {
    hide Serves;
    SyncIsFull(scheduler.Fields(), rows, db.jobs);
    ghost var v := scheduler.Fields();
    forall row | row in rows
      ensures row.1.nextFire % SECOND == 0
    {
      assert (row.0, row.1) in rows;
    }
    SyncKeepsIndex(v, rows);
    scheduler.SyncJobs(rows, startedAt);
    ghost var fired;
    dispatched, fired := scheduler.DispatchDueJobs(db, next, now);
    step := Cycle(r, rows, now, fired);
    s' := System(now, db.jobs, s.replicas[r := scheduler.Fields()], s.log + fired);
  }
}
