/** Jobs as the API and the scheduler commit them: schedule, compiled action, dependencies. */
module JobService {
  import opened Tasks
  import opened Graph

  type Json = string

  datatype JobType = CronJob | OneTimeJob

  datatype Action = Http | Shell

  datatype Job = Job(
    jobType: JobType,
    cron: Option<string>,
    nextFire: Option<int>,
    action: Action,
    config: Json,
    spec: Json,
    enabled: bool
  )

  datatype JobCreate = JobCreate(cron: Option<string>, action: Action, config: Json, enabled: bool, upstream: set<JobId>, downstream: set<JobId>)

  /** Only the fields that were sent are present. */
  datatype JobUpdate = JobUpdate(
    cron: Option<Option<string>>,
    action: Option<Action>,
    config: Option<Json>,
    enabled: Option<bool>,
    upstream: Option<set<JobId>>,
    downstream: Option<set<JobId>>
  )

  datatype Error = NotFound | InvalidCron | BadAction | CircularDependency

  datatype Outcome = Done(started: bool) | Rejected(error: Error)

  datatype Schedule = Schedule(jobType: JobType, cron: Option<string>, nextFire: Option<int>) | BadSchedule

  /** Code outside the model: the cron library, and the action compiler, which fails on a
      configuration that does not match its schema. */
  datatype Library = Library(isValid: string -> bool, next: (string, int) -> int, compile: (Action, Json) -> Option<Json>)

  predicate IsSpace(c: char) {
    c in " \t\n\r"
  }

  function StripLeft(s: string): string {
    if s != "" && IsSpace(s[0]) then StripLeft(s[1..]) else s
  }

  function StripRight(s: string): string {
    if s != "" && IsSpace(s[|s| - 1]) then StripRight(s[..|s| - 1]) else s
  }

  predicate AllSpace(s: string) {
    forall c | c in s :: IsSpace(c)
  }

  /** No text, or nothing but spaces. */
  predicate Blank(raw: Option<string>) {
    raw.Some? ==> AllSpace(raw.value)
  }

  /** `text` is what is left of `raw` without the spaces around it. */
  ghost predicate Trims(raw: string, text: string) {
    && text != "" && !IsSpace(text[0]) && !IsSpace(text[|text| - 1])
    && exists pre, post :: raw == pre + text + post && AllSpace(pre) && AllSpace(post)
  }

  lemma {:induction false} StripLeftDrops(s: string) returns (pre: string)
    ensures s == pre + StripLeft(s) && AllSpace(pre)
    ensures StripLeft(s) != "" ==> !IsSpace(StripLeft(s)[0])
  {
    if s != "" && IsSpace(s[0]) {
      pre := StripLeftDrops(s[1..]);
      pre := [s[0]] + pre;
    } else {
      pre := "";
    }
  }

  lemma {:induction false} StripRightDrops(s: string) returns (post: string)
    ensures s == StripRight(s) + post && AllSpace(post)
    ensures StripRight(s) != "" ==> !IsSpace(StripRight(s)[|StripRight(s)| - 1])
  {
    var n := |s| - 1;
    if s != "" && IsSpace(s[n]) {
      post := StripRightDrops(s[..n]);
      assert s == s[..n] + [s[n]];
      post := post + [s[n]];
    } else {
      post := "";
    }
  }

  /** Stripping trims, and leaves nothing exactly of a blank text. */
  lemma StripTrims(raw: string)
    ensures StripRight(StripLeft(raw)) == "" <==> AllSpace(raw)
    ensures StripRight(StripLeft(raw)) != "" ==> Trims(raw, StripRight(StripLeft(raw)))
  {
    var left := StripLeft(raw);
    var text := StripRight(left);
    var pre := StripLeftDrops(raw);
    var post := StripRightDrops(left);
    assert raw == pre + text + post;
    if text != "" {
      assert text[0] == left[0];
      assert raw[|pre|] == text[0] && raw[|pre|] in raw;
    }
  }

  /** What a raw cron text gives: blank text a one-time job; otherwise its trimmed form, which
      must be valid, a scheduled job with the next firing after now. */
  function ResolveSchedule(lib: Library, raw: Option<string>, now: int): (r: Schedule)
    ensures Blank(raw) ==> r == Schedule(OneTimeJob, None, None)
    ensures !Blank(raw) && r.Schedule? ==>
      && r.jobType == CronJob && r.cron.Some? && Trims(raw.value, r.cron.value)
      && lib.isValid(r.cron.value) && r.nextFire == Some(lib.next(r.cron.value, now))
    ensures r.BadSchedule? ==> !Blank(raw) && exists text :: Trims(raw.value, text) && !lib.isValid(text)
  {
    StripTrims(if raw.Some? then raw.value else "");
    var cron := StripRight(StripLeft(if raw.Some? then raw.value else ""));
    if cron == "" then Schedule(OneTimeJob, None, None)
    else if !lib.isValid(cron) then BadSchedule
    else Schedule(CronJob, Some(cron), Some(lib.next(cron, now)))
  }

  /** The action's compiled form, unless shell actions are disabled or it does not compile. */
  function BuildSpec(lib: Library, shellEnabled: bool, action: Action, config: Json): (r: Option<Json>)
    ensures r.Some? ==> r == lib.compile(action, config) && (action == Shell ==> shellEnabled)
    ensures r.None? ==> lib.compile(action, config).None? || (action == Shell && !shellEnabled)
  {
    if action == Shell && !shellEnabled then None else lib.compile(action, config)
  }

  /** The derived columns agree with what they are derived from. */
  ghost predicate Derived(lib: Library, job: Job) {
    && lib.compile(job.action, job.config) == Some(job.spec)
    && (job.jobType == CronJob <==> job.cron.Some?)
    && (job.cron.Some? <==> job.nextFire.Some?)
  }

  /** `edges` with the given sides of `job` replaced by those of the named jobs that exist. */
  function Rewired(edges: set<Edge>, jobs: set<JobId>, job: JobId, upstream: Option<set<JobId>>, downstream: Option<set<JobId>>): set<Edge> {
    var up := if upstream.None? then edges
      else (set e | e in edges && e.1 != job) + set u | u in upstream.value && u in jobs :: (u, job);
    if downstream.None? then up
    else (set e | e in up && e.0 != job) + set d | d in downstream.value && d in jobs :: (job, d)
  }

  lemma RewiredAt(edges: set<Edge>, jobs: set<JobId>, job: JobId, upstream: Option<set<JobId>>, downstream: Option<set<JobId>>)
    ensures EditedAt(edges, Rewired(edges, jobs, job, upstream, downstream), job)
    ensures upstream.None? && downstream.None? ==> Rewired(edges, jobs, job, upstream, downstream) == edges
    ensures forall e | e in Rewired(edges, jobs, job, upstream, downstream) && e !in edges :: e.0 in jobs + {job} && e.1 in jobs + {job}
  {
  }

  /** Edge by edge: a side that was sent holds the named jobs that exist, a side that was not
      sent and every edge elsewhere is as before, and the job is not its own neighbour. */
  ghost predicate EdgesFollow(edges: set<Edge>, edges': set<Edge>, jobs: set<JobId>, id: JobId, upstream: Option<set<JobId>>, downstream: Option<set<JobId>>) {
    && (forall u :: (u, id) in edges' <==> u != id && if upstream.Some? then u in upstream.value && u in jobs else (u, id) in edges)
    && (forall d :: (id, d) in edges' <==> d != id && if downstream.Some? then d in downstream.value && d in jobs else (id, d) in edges)
    && (forall a, b | a != id && b != id :: (a, b) in edges' <==> (a, b) in edges)
  }

  lemma RewiredEdges(edges: set<Edge>, jobs: set<JobId>, job: JobId, upstream: Option<set<JobId>>, downstream: Option<set<JobId>>)
    ensures
      var edges' := Rewired(edges, jobs, job, upstream, downstream);
      && ((job, job) !in edges' ==> EdgesFollow(edges, edges', jobs, job, upstream, downstream))
      && ((job, job) in edges' <==>
            if downstream.Some? then job in downstream.value && job in jobs
            else if upstream.Some? then job in upstream.value && job in jobs
            else (job, job) in edges)
  {
  }

  /** A job named on both sides makes a cycle. */
  lemma BothSidesIsCyclic(edges: set<Edge>, jobs: set<JobId>, job: JobId, upstream: set<JobId>, downstream: set<JobId>, other: JobId)
    requires other in upstream && other in downstream && other in jobs
    ensures !Acyclic(Rewired(edges, jobs, job, Some(upstream), Some(downstream)))
  {
    var edges' := Rewired(edges, jobs, job, Some(upstream), Some(downstream));
    assert (job, other) in edges';
    assert (other, job) in edges';
    MutualIsCyclic(edges', other, job);
  }

  /** Names that alone get an edit rejected: one on both sides, the job itself as a downstream,
      or as an upstream when no downstreams are sent. */
  ghost predicate SelfDefeating(jobs: set<JobId>, id: JobId, upstream: Option<set<JobId>>, downstream: Option<set<JobId>>) {
    || (downstream.Some? && id in downstream.value && id in jobs)
    || (upstream.Some? && downstream.None? && id in upstream.value && id in jobs)
    || (upstream.Some? && downstream.Some? && exists u :: u in upstream.value && u in downstream.value && u in jobs)
  }

  lemma AcceptedEdit(edges: set<Edge>, jobs: set<JobId>, job: JobId, upstream: Option<set<JobId>>, downstream: Option<set<JobId>>)
    ensures var edges' := Rewired(edges, jobs, job, upstream, downstream);
      Acyclic(edges') ==> EdgesFollow(edges, edges', jobs, job, upstream, downstream) && !SelfDefeating(jobs, job, upstream, downstream)
  {
    var edges' := Rewired(edges, jobs, job, upstream, downstream);
    RewiredEdges(edges, jobs, job, upstream, downstream);
    hide Rewired, EdgesFollow;
    if (job, job) in edges' {
      MutualIsCyclic(edges', job, job);
    }
    if upstream.Some? && downstream.Some? {
      if u :| u in upstream.value && u in downstream.value && u in jobs {
        BothSidesIsCyclic(edges, jobs, job, upstream.value, downstream.value, u);
      }
    }
  }

  /** Field by field: what was sent is taken over, what was not sent stays, and the derived
      columns follow. */
  ghost predicate FieldsFollow(lib: Library, job: Job, payload: JobUpdate, now: int, job': Job) {
    && job'.enabled == (if payload.enabled.Some? then payload.enabled.value else job.enabled)
    && job'.action == (if payload.action.Some? then payload.action.value else job.action)
    && job'.config == (if payload.config.Some? then payload.config.value else job.config)
    && lib.compile(job'.action, job'.config) == Some(job'.spec)
    && (payload.cron.None? ==> job'.jobType == job.jobType && job'.cron == job.cron && job'.nextFire == job.nextFire)
    && (payload.cron.Some? ==> ScheduleFollows(lib, payload.cron.value, now, job'))
  }

  ghost predicate ScheduleFollows(lib: Library, raw: Option<string>, now: int, job: Job) {
    if Blank(raw) then job.jobType == OneTimeJob && job.cron == None && job.nextFire == None
    else
      && job.jobType == CronJob && job.cron.Some? && Trims(raw.value, job.cron.value)
      && lib.isValid(job.cron.value) && job.nextFire == Some(lib.next(job.cron.value, now))
  }

  class JobTable {
    const lib: Library
    var jobs: map<JobId, Job>
    var edges: set<Edge>

    /** What holds after any sequence of creates, updates, deletes and cron dispatches. */
    ghost predicate Valid()
      reads this
    {
      && Acyclic(edges)
      && (forall e | e in edges :: e.0 in jobs && e.1 in jobs)
      && (forall j | j in jobs :: Derived(lib, jobs[j]))
    }

    constructor (lib: Library)
      ensures Valid() && this.lib == lib && jobs == map[] && edges == {}
    {
      this.lib := lib;
      jobs, edges := map[], {};
      new;
      EmptyAcyclic();
    }

    /** Whether the job lies on a cycle of `edges`, decided by its descendants alone. */
    static method CreatesCycle(edges: set<Edge>, job: JobId) returns (cyclic: bool)
      ensures cyclic <==> Reaches(edges, job, job)
    {
      var found := GetAllDescendants(edges, job);
      cyclic := job in found;
    }

    static predicate StartsNow(job: Job, edges: set<Edge>, id: JobId) {
      job.jobType == OneTimeJob && job.enabled && Upstreams(edges, id) == {}
    }

    method CreateJob(id: JobId, payload: JobCreate, shellEnabled: bool, now: int) returns (r: Outcome)
      requires Valid() && id !in jobs
      modifies this
      ensures Valid()
      ensures var edges' := Rewired(old(edges), old(jobs).Keys, id, Some(payload.upstream), Some(payload.downstream));
        var spec := BuildSpec(lib, shellEnabled, payload.action, payload.config);
        var schedule := ResolveSchedule(lib, payload.cron, now);
        if schedule.BadSchedule? then r == Rejected(InvalidCron)
        else if spec.None? then r == Rejected(BadAction)
        else if !Acyclic(edges') then r == Rejected(CircularDependency)
        else
          && edges == edges'
          && jobs == old(jobs)[id := Job(schedule.jobType, schedule.cron, schedule.nextFire, payload.action, payload.config, spec.value, payload.enabled)]
          && r == Done(StartsNow(jobs[id], edges, id))
      ensures r.Done? ==>
        && EdgesFollow(old(edges), edges, old(jobs).Keys, id, Some(payload.upstream), Some(payload.downstream))
        && !SelfDefeating(old(jobs).Keys, id, Some(payload.upstream), Some(payload.downstream))
        && ScheduleFollows(lib, payload.cron, now, jobs[id])
        && (r.started <==> Blank(payload.cron) && payload.enabled && forall u :: (u, id) !in edges)
      ensures r.Rejected? ==> jobs == old(jobs) && edges == old(edges)
    {
      hide EdgesFollow, SelfDefeating, Reaches, Trims;
      AcceptedEdit(edges, jobs.Keys, id, Some(payload.upstream), Some(payload.downstream));
      var schedule := ResolveSchedule(lib, payload.cron, now);
      if schedule.BadSchedule? {
        return Rejected(InvalidCron);
      }
      var spec := BuildSpec(lib, shellEnabled, payload.action, payload.config);
      if spec.None? {
        return Rejected(BadAction);
      }
      var job := Job(schedule.jobType, schedule.cron, schedule.nextFire, payload.action, payload.config, spec.value, payload.enabled);
      var edges' := Rewired(edges, jobs.Keys, id, Some(payload.upstream), Some(payload.downstream));
      var cyclic := CreatesCycle(edges', id);
      LocalCheckIsGlobal(edges, edges', id);
      if cyclic {
        return Rejected(CircularDependency);
      }
      jobs, edges := jobs[id := job], edges';
      UpstreamsAre(edges, id);
      r := Done(StartsNow(job, edges, id));
    }

    /** The row an accepted update commits. */
    function Updated(job: Job, payload: JobUpdate, schedule: Schedule, spec: Option<Json>): Job
      requires schedule.Schedule? && spec.Some?
    {
      Job(schedule.jobType, schedule.cron, schedule.nextFire,
          if payload.action.Some? then payload.action.value else job.action,
          if payload.config.Some? then payload.config.value else job.config,
          spec.value,
          if payload.enabled.Some? then payload.enabled.value else job.enabled)
    }

    /** The schedule columns after an update: resolved anew only if a cron was sent. */
    function NewSchedule(job: Job, payload: JobUpdate, now: int): Schedule {
      if payload.cron.Some? then ResolveSchedule(lib, payload.cron.value, now)
      else Schedule(job.jobType, job.cron, job.nextFire)
    }

    /** The compiled action after an update: re-derived when either input moves. */
    function NewSpec(job: Job, payload: JobUpdate, shellEnabled: bool): Option<Json> {
      if payload.action.Some? || payload.config.Some? then
        BuildSpec(lib, shellEnabled,
                  if payload.action.Some? then payload.action.value else job.action,
                  if payload.config.Some? then payload.config.value else job.config)
      else Some(job.spec)
    }

    /** Whichever of action and configuration is sent, or neither: the compiled form is that of
        the action the row ends up with, and a shell action is compiled anew only if allowed. */
    lemma UpdateStaysDerived(job: Job, payload: JobUpdate, shellEnabled: bool, now: int)
      requires Derived(lib, job) && NewSchedule(job, payload, now).Schedule? && NewSpec(job, payload, shellEnabled).Some?
      ensures
        var job' := Updated(job, payload, NewSchedule(job, payload, now), NewSpec(job, payload, shellEnabled));
        && Derived(lib, job') && FieldsFollow(lib, job, payload, now, job')
        && (job'.action == Shell && (job'.action != job.action || job'.config != job.config) ==> shellEnabled)
    {
    }

    method UpdateJob(id: JobId, payload: JobUpdate, shellEnabled: bool, now: int) returns (r: Outcome)
      requires Valid()
      modifies this
      ensures Valid()
      ensures id !in old(jobs) ==> r == Rejected(NotFound)
      ensures id in old(jobs) ==>
        var job := old(jobs)[id];
        var edges' := Rewired(old(edges), old(jobs).Keys, id, payload.upstream, payload.downstream);
        var schedule, spec := NewSchedule(job, payload, now), NewSpec(job, payload, shellEnabled);
        if schedule.BadSchedule? then r == Rejected(InvalidCron)
        else if spec.None? then r == Rejected(BadAction)
        else if !Acyclic(edges') then r == Rejected(CircularDependency)
        else
          && edges == edges'
          && jobs == old(jobs)[id := Updated(job, payload, schedule, spec)]
          && r == Done(!job.enabled && StartsNow(jobs[id], edges, id))
      ensures r.Done? ==>
        && jobs.Keys == old(jobs).Keys && id in jobs
        && (forall j | j in jobs && j != id :: jobs[j] == old(jobs)[j])
        && FieldsFollow(lib, old(jobs)[id], payload, now, jobs[id])
        && EdgesFollow(old(edges), edges, old(jobs).Keys, id, payload.upstream, payload.downstream)
        && !SelfDefeating(old(jobs).Keys, id, payload.upstream, payload.downstream)
        && (r.started <==> !old(jobs)[id].enabled && jobs[id].enabled && jobs[id].jobType == OneTimeJob && forall u :: (u, id) !in edges)
      ensures r.Rejected? ==> jobs == old(jobs) && edges == old(edges)
    {
      if id !in jobs {
        return Rejected(NotFound);
      }
      hide Rewired, Reaches, FieldsFollow, EdgesFollow, SelfDefeating;
      RewiredAt(edges, jobs.Keys, id, payload.upstream, payload.downstream);
      AcceptedEdit(edges, jobs.Keys, id, payload.upstream, payload.downstream);
      var job := jobs[id];
      var schedule := NewSchedule(job, payload, now);
      if schedule.BadSchedule? {
        return Rejected(InvalidCron);
      }
      var spec := NewSpec(job, payload, shellEnabled);
      if spec.None? {
        return Rejected(BadAction);
      }
      var edges' := Rewired(edges, jobs.Keys, id, payload.upstream, payload.downstream);
      LocalCheckIsGlobal(edges, edges', id);
      if payload.upstream.Some? || payload.downstream.Some? {
        var cyclic := CreatesCycle(edges', id);
        if cyclic {
          return Rejected(CircularDependency);
        }
      }
      UpdateStaysDerived(job, payload, shellEnabled, now);
      jobs, edges := jobs[id := Updated(job, payload, schedule, spec)], edges';
      UpstreamsAre(edges, id);
      r := Done(!job.enabled && StartsNow(jobs[id], edges, id));
    }

    /** Deleting a job deletes its dependencies with it. */
    method DeleteJob(id: JobId) returns (r: Outcome)
      requires Valid()
      modifies this
      ensures Valid()
      ensures jobs == old(jobs) - {id} && edges == set e | e in old(edges) && e.0 != id && e.1 != id
      ensures r == if id in old(jobs) then Done(false) else Rejected(NotFound)
    {
      if id !in jobs {
        assert edges == set e | e in edges && e.0 != id && e.1 != id;
        return Rejected(NotFound);
      }
      var edges' := set e | e in edges && e.0 != id && e.1 != id;
      SubgraphAcyclic(edges, edges');
      jobs, edges := jobs - {id}, edges';
      r := Done(false);
    }

    /** The scheduler advances a cron job's next firing; it always finds one. */
    method AdvanceSchedule(id: JobId, now: int) returns (previous: int)
      requires Valid() && id in jobs && jobs[id].jobType == CronJob
      modifies this`jobs
      ensures Valid() && Some(previous) == old(jobs)[id].nextFire
      ensures jobs == old(jobs)[id := old(jobs)[id].(nextFire := Some(lib.next(old(jobs)[id].cron.value, now)))]
    {
      var job := jobs[id];
      assert Derived(lib, job);
      previous := job.nextFire.value;
      jobs := jobs[id := job.(nextFire := Some(lib.next(job.cron.value, now)))];
    }
  }
}
