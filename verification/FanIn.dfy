/** Fan-in: one round of all upstreams causes exactly one downstream run. */
module FanIn {
  import opened Tasks
  import opened Graph
  import opened Chaining
  import Counting

  /** A round of `down`: one not yet processed task of every upstream, each the newest of
      its job. */
  ghost predicate Round(s: State, edges: set<Edge>, down: JobId, round: map<JobId, TaskId>) {
    && round.Keys == Upstreams(edges, down) != {}
    && (forall u | u in round ::
          && round[u] in s.tasks && s.tasks[round[u]].job == u && !s.tasks[round[u]].processed
          && (forall t | t in s.tasks && s.tasks[t].job == u && t != round[u] ::
                s.tasks[t].createdAt < s.tasks[round[u]].createdAt))
  }

  ghost predicate AllSucceeded(s: State, round: map<JobId, TaskId>) {
    forall u | u in round :: round[u] in s.tasks && s.tasks[round[u]].status == Success
  }

  ghost predicate AllProcessed(s: State, round: map<JobId, TaskId>) {
    forall u | u in round :: round[u] in s.tasks && s.tasks[round[u]].processed
  }

  ghost function RoundReady(s: State, round: map<JobId, TaskId>): int
    requires AllSucceeded(s, round) && round.Keys != {}
  {
    var times := set u | u in round :: CompletedAt(s.tasks[round[u]]);
    assert times != {} by {
      var u :| u in round;
      assert CompletedAt(s.tasks[round[u]]) in times;
    }
    Counting.Max(times)
  }

  /** The triggers of `down` recorded since there were `base` triggers. */
  ghost predicate IsFiring(s: State, base: nat, down: JobId, k: int) {
    base <= k < |s.triggers| && s.triggers[k].job == down
  }

  ghost predicate Caused(s: State, base: nat, down: JobId, t: TaskId) {
    exists k :: IsFiring(s, base, down, k) && s.triggers[k].task == t
  }

  /** `s'` comes later: rows keep their identity, results are final, rows and triggers stay. */
  ghost predicate Later(s: State, s': State) {
    && s.now <= s'.now
    && s.triggers <= s'.triggers
    && (forall k | |s.triggers| <= k < |s'.triggers| :: s'.triggers[k].task !in s.tasks)
    && (forall t | t in s.tasks ::
          && t in s'.tasks && s'.tasks[t].job == s.tasks[t].job && s'.tasks[t].createdAt == s.tasks[t].createdAt
          && (Terminal(s.tasks[t].status) ==>
                s'.tasks[t].status == s.tasks[t].status && s'.tasks[t].finishedAt == s.tasks[t].finishedAt)
          && (s.tasks[t].processed ==> s'.tasks[t].processed))
  }

  lemma StepIsLater(s: State, step: Step, s': State)
    requires Follows(s, step, s')
    ensures Later(s, s')
  {
  }

  lemma LaterTransitive(a: State, b: State, c: State)
    requires Later(a, b) && Later(b, c)
    ensures Later(a, c)
  {
  }

  lemma {:induction false} SegmentIsLater(states: seq<State>, steps: seq<Step>, i: nat, n: nat)
    requires Segment(states, steps) && i <= n < |states|
    ensures Later(states[i], states[n])
    decreases n - i
  {
    if i < n {
      SegmentIsLater(states, steps, i, n - 1);
      assert Follows(states[n - 1], steps[n - 1], states[n]);
      hide Later, Follows;
      StepIsLater(states[n - 1], steps[n - 1], states[n]);
      LaterTransitive(states[i], states[n - 1], states[n]);
    }
  }

  // ---- One state of the round, seen from its end ----

  /** `s` lies within the round: `end` is later, no upstream task was added, and no other run
      of `down` is created or finished at or after the round's ready time. */
  ghost predicate Within(s: State, end: State, base: nat, edges: set<Edge>, down: JobId, round: map<JobId, TaskId>) {
    && Timely(s) && Timely(end) && Recorded(s) && Later(s, end) && base <= |s.triggers|
    && round.Keys == Upstreams(edges, down) != {}
    && AllSucceeded(end, round)
    && (forall u | u in round :: round[u] in s.tasks && s.tasks[round[u]].job == u)
    && (forall u, t | u in round && t in end.tasks && end.tasks[t].job == u && t != round[u] && round[u] in end.tasks ::
          end.tasks[t].createdAt < end.tasks[round[u]].createdAt)
    && (forall t | t in end.tasks && end.tasks[t].job == down && !Caused(end, base, down, t) ::
          CompletedAt(end.tasks[t]) < RoundReady(end, round))
  }

  /** Within the round, every upstream's newest task is the round's. */
  lemma LatestIsRound(s: State, end: State, base: nat, edges: set<Edge>, down: JobId, round: map<JobId, TaskId>, latest: map<JobId, TaskId>)
    requires Within(s, end, base, edges, down, round) && IsLatest(s.tasks, latest)
    ensures forall u | u in round :: u in latest && latest[u] == round[u]
  {
    forall u | u in round
      ensures u in latest && latest[u] == round[u]
    {
      assert s.tasks[round[u]].job in latest;
      assert latest[u] in end.tasks && end.tasks[latest[u]].job == u;
    }
  }

  /** When the pass finds all upstreams succeeded, its ready time is the round's. */
  lemma ReadyAtIsRound(s: State, end: State, base: nat, edges: set<Edge>, down: JobId, round: map<JobId, TaskId>,
                       batch: set<TaskId>, latest: map<JobId, TaskId>)
    requires Within(s, end, base, edges, down, round) && IsLatest(s.tasks, latest)
    ensures UpstreamsSucceeded(edges, Marked(s.tasks, batch), latest, down) <==> AllSucceeded(s, round)
    ensures AllSucceeded(s, round) ==>
      ReadyAt(edges, Marked(s.tasks, batch), latest, down) == RoundReady(end, round)
  {
    LatestIsRound(s, end, base, edges, down, round, latest);
    RoundRowsFinal(s, end, base, edges, down, round);
    hide Within, IsLatest;
    if AllSucceeded(s, round) {
      SameTimes(s, end, edges, down, round, batch, latest);
    }
  }

  lemma SameTimes(s: State, end: State, edges: set<Edge>, down: JobId, round: map<JobId, TaskId>, batch: set<TaskId>, latest: map<JobId, TaskId>)
    requires round.Keys == Upstreams(edges, down) != {} && AllSucceeded(s, round) && AllSucceeded(end, round)
    requires forall u | u in round :: u in latest && latest[u] == round[u]
    requires forall u | u in round :: CompletedAt(s.tasks[round[u]]) == CompletedAt(end.tasks[round[u]])
    ensures UpstreamsSucceeded(edges, Marked(s.tasks, batch), latest, down)
    ensures ReadyAt(edges, Marked(s.tasks, batch), latest, down) == RoundReady(end, round)
  {
    var tasks := Marked(s.tasks, batch);
    assert (set u | u in Upstreams(edges, down) :: CompletedAt(tasks[latest[u]]))
        == (set u | u in round :: CompletedAt(end.tasks[round[u]]));
  }

  lemma RoundRowsFinal(s: State, end: State, base: nat, edges: set<Edge>, down: JobId, round: map<JobId, TaskId>)
    requires Within(s, end, base, edges, down, round)
    ensures round.Keys == Upstreams(edges, down) != {} && AllSucceeded(end, round)
    ensures forall u | u in round :: round[u] in s.tasks && round[u] in end.tasks
    ensures forall u | u in round && s.tasks[round[u]].status == Success :: CompletedAt(s.tasks[round[u]]) == CompletedAt(end.tasks[round[u]])
  {
  }

  ghost predicate NotYet(s: State, base: nat, down: JobId) {
    forall k :: !IsFiring(s, base, down, k)
  }

  /** `down` has fired exactly once since, at the given ready time. */
  ghost predicate OnceFor(s: State, base: nat, down: JobId, readyAt: int) {
    exists k :: IsFiring(s, base, down, k) && s.triggers[k].readyAt == readyAt && forall m | IsFiring(s, base, down, m) :: m == k
  }

  /** Before `down` has fired, its runs are older than the round. */
  lemma OwnIsOlder(s: State, end: State, base: nat, edges: set<Edge>, down: JobId, round: map<JobId, TaskId>, t: TaskId)
    requires Within(s, end, base, edges, down, round) && NotYet(s, base, down) && t in s.tasks && s.tasks[t].job == down
    ensures CompletedAt(s.tasks[t]) < RoundReady(end, round)
  {
    assert t in end.tasks;
    assert !Caused(end, base, down, t) by {
      forall k | IsFiring(end, base, down, k)
        ensures end.triggers[k].task != t
      {
        if k < |s.triggers| {
          assert s.triggers[k] == end.triggers[k];
          assert !IsFiring(s, base, down, k);
        }
      }
    }
    assert CompletedAt(s.tasks[t]) <= CompletedAt(end.tasks[t]);
  }

  /** Once `down` has fired for the round, it is not ready again. */
  lemma NotReadyAgain(s: State, end: State, base: nat, edges: set<Edge>, down: JobId, round: map<JobId, TaskId>,
                      batch: set<TaskId>, latest: map<JobId, TaskId>)
    requires Within(s, end, base, edges, down, round) && IsLatest(s.tasks, latest) && AllSucceeded(s, round)
    requires OnceFor(s, base, down, RoundReady(end, round))
    ensures !Ready(edges, Marked(s.tasks, batch), latest, down)
  {
    ReadyAtIsRound(s, end, base, edges, down, round, batch, latest);
    var k :| IsFiring(s, base, down, k) && s.triggers[k].readyAt == RoundReady(end, round);
    var f := s.triggers[k];
    assert f in s.triggers;
    assert s.tasks[f.task].job in latest;
    var own := latest[down];
    assert CompletedAt(Marked(s.tasks, batch)[own]) == CompletedAt(s.tasks[own]);
    assert f.readyAt <= s.tasks[f.task].createdAt <= s.tasks[own].createdAt <= CompletedAt(s.tasks[own]);
  }

  /** Until then it is ready as soon as all of the round has succeeded. */
  lemma ReadyOnce(s: State, end: State, base: nat, edges: set<Edge>, down: JobId, round: map<JobId, TaskId>,
                  batch: set<TaskId>, latest: map<JobId, TaskId>)
    requires Within(s, end, base, edges, down, round) && IsLatest(s.tasks, latest) && NotYet(s, base, down)
    ensures Ready(edges, Marked(s.tasks, batch), latest, down) <==> AllSucceeded(s, round)
  {
    ReadyAtIsRound(s, end, base, edges, down, round, batch, latest);
    if down in latest {
      assert latest[down] in s.tasks && s.tasks[latest[down]].job == down;
      OwnIsOlder(s, end, base, edges, down, round, latest[down]);
      assert CompletedAt(Marked(s.tasks, batch)[latest[down]]) == CompletedAt(s.tasks[latest[down]]);
    }
  }

  /** Exactly once so far, or not yet and some of the round still to be processed. */
  ghost predicate OnTrack(s: State, end: State, base: nat, down: JobId, round: map<JobId, TaskId>)
    requires AllSucceeded(end, round) && round.Keys != {}
  {
    || (NotYet(s, base, down) && !AllProcessed(s, round))
    || (OnceFor(s, base, down, RoundReady(end, round)) && AllSucceeded(s, round))
  }

  lemma FiredOnce(s: State, step: Step, s': State, base: nat, down: JobId, readyAt: int, f: Firing)
    requires step.Pass? && base <= |s.triggers| && s'.triggers == s.triggers + step.created && NotYet(s, base, down)
    requires f in step.created && f.job == down && f.readyAt == readyAt
    requires forall i, k | 0 <= i < k < |step.created| :: step.created[i].job != step.created[k].job
    ensures OnceFor(s', base, down, readyAt)
  {
    var n := |s.triggers|;
    var i :| 0 <= i < |step.created| && step.created[i] == f;
    assert IsFiring(s', base, down, n + i);
    forall m | base <= m < n
      ensures s'.triggers[m].job != down
    {
      assert s'.triggers[m] == s.triggers[m];
      assert !IsFiring(s, base, down, m);
    }
    assert forall m | n <= m < |s'.triggers| :: s'.triggers[m] == step.created[m - n];
  }

  lemma FiredNoMore(s: State, step: Step, s': State, base: nat, down: JobId)
    requires step.Pass? && base <= |s.triggers| && s'.triggers == s.triggers + step.created
    requires forall f | f in step.created :: f.job != down
    ensures forall k :: IsFiring(s', base, down, k) <==> IsFiring(s, base, down, k)
  {
    forall k: int
      ensures IsFiring(s', base, down, k) <==> IsFiring(s, base, down, k)
    {
      if |s.triggers| <= k < |s'.triggers| {
        assert s'.triggers[k] == step.created[k - |s.triggers|];
      }
    }
  }

  /** If the pass processes the rest of the round, `down` is among its candidates. */
  lemma LastIsCandidate(s: State, step: Step, s': State, edges: set<Edge>, down: JobId, round: map<JobId, TaskId>)
    requires step.Pass? && Passes(s, step, s') && step.edges == edges && down in step.enabled
    requires round.Keys == Upstreams(edges, down) && (forall u | u in round :: round[u] in s.tasks && s.tasks[round[u]].job == u)
    ensures !AllProcessed(s, round) && AllProcessed(s', round) ==> down in Candidates(edges, step.enabled, s.tasks, step.batch)
  {
    if !AllProcessed(s, round) && AllProcessed(s', round) {
      var u :| u in round && !s.tasks[round[u]].processed;
      assert s'.tasks[round[u]].processed;
      assert round[u] in step.batch;
      assert (u, down) in edges;
    }
  }

  lemma PassStaysOnTrack(s: State, step: Step, s': State, end: State, base: nat, edges: set<Edge>, down: JobId, round: map<JobId, TaskId>)
    requires Within(s, end, base, edges, down, round) && Timely(s')
    requires step.Pass? && Passes(s, step, s') && step.edges == edges && down in step.enabled
    requires OnTrack(s, end, base, down, round)
    ensures OnTrack(s', end, base, down, round)
  {
    PassAppends(s, step, s');
    PassKeepsRound(s, step, s', round);
    var batch, latest := step.batch, step.latest;
    if NotYet(s, base, down) && !AllProcessed(s, round) {
      ReadyOnce(s, end, base, edges, down, round, batch, latest);
      ReadyAtIsRound(s, end, base, edges, down, round, batch, latest);
      if f :| f in step.created && f.job == down {
        FiredOnce(s, step, s', base, down, RoundReady(end, round), f);
      } else {
        FiredNoMore(s, step, s', base, down);
        LastIsCandidate(s, step, s', edges, down, round);
      }
    } else {
      NotReadyAgain(s, end, base, edges, down, round, batch, latest);
      FiredNoMore(s, step, s', base, down);
      var k :| IsFiring(s, base, down, k) && s.triggers[k].readyAt == RoundReady(end, round);
      assert IsFiring(s', base, down, k) && s'.triggers[k] == s.triggers[k];
    }
  }

  lemma PassKeepsRound(s: State, step: Step, s': State, round: map<JobId, TaskId>)
    requires step.Pass? && Passes(s, step, s')
    ensures AllSucceeded(s, round) ==> AllSucceeded(s', round)
    ensures Timely(s') && AllProcessed(s', round) && (forall u | u in round :: round[u] in s.tasks) ==> AllSucceeded(s, round)
  {
  }

  // ---- Whole runs ----

  /** The hypotheses: from state `a` to state `n` of a run, a round of `down` succeeds and is
      processed, with the graph unchanged, no further upstream task, and no other run of
      `down` created or finished at or after the round's ready time. */
  ghost predicate RoundOf(states: seq<State>, steps: seq<Step>, a: nat, n: nat, edges: set<Edge>, down: JobId, round: map<JobId, TaskId>)
    requires Run(states, steps) && a <= n < |states|
  {
    && Round(states[a], edges, down, round)
    && (forall i | a <= i < n && steps[i].Pass? :: steps[i].edges == edges && down in steps[i].enabled)
    && (forall t | t in states[n].tasks && states[n].tasks[t].job in round :: t in states[a].tasks)
    && AllSucceeded(states[n], round)
    && AllProcessed(states[n], round)
    && (forall t | t in states[n].tasks && states[n].tasks[t].job == down && !Caused(states[n], |states[a].triggers|, down, t) ::
          CompletedAt(states[n].tasks[t]) < RoundReady(states[n], round))
  }

  lemma AlwaysWithin(states: seq<State>, steps: seq<Step>, a: nat, i: nat, n: nat, edges: set<Edge>, down: JobId, round: map<JobId, TaskId>)
    requires Run(states, steps) && a <= i <= n < |states| && RoundOf(states, steps, a, n, edges, down, round)
    ensures Within(states[i], states[n], |states[a].triggers|, edges, down, round)
  {
    RunsKeepRows(states, steps, i);
    RunsKeepRows(states, steps, n);
    SegmentIsLater(states, steps, a, i);
    SegmentIsLater(states, steps, i, n);
    SegmentIsLater(states, steps, a, n);
    hide Run, Timely, Recorded;
  }

  lemma StepStaysOnTrack(s: State, step: Step, s': State, end: State, base: nat, edges: set<Edge>, down: JobId, round: map<JobId, TaskId>)
    requires Within(s, end, base, edges, down, round) && Timely(s') && Later(s, s') && Follows(s, step, s')
    requires step.Pass? ==> step.edges == edges && down in step.enabled
    requires OnTrack(s, end, base, down, round)
    ensures OnTrack(s', end, base, down, round)
  {
    assert forall u | u in round :: round[u] in s.tasks;
    hide Within, OnTrack, Follows;
    if step.Pass? {
      assert Passes(s, step, s');
      PassStaysOnTrack(s, step, s', end, base, edges, down, round);
    } else {
      QuietStaysOnTrack(s, step, s', end, base, down, round);
    }
  }

  lemma QuietStaysOnTrack(s: State, step: Step, s': State, end: State, base: nat, down: JobId, round: map<JobId, TaskId>)
    requires !step.Pass? && Follows(s, step, s') && Later(s, s') && AllSucceeded(end, round) && round.Keys != {}
    requires forall u | u in round :: round[u] in s.tasks
    requires OnTrack(s, end, base, down, round)
    ensures OnTrack(s', end, base, down, round)
  {
    assert s'.triggers == s.triggers;
    assert forall t | t in s.tasks && t in s'.tasks :: s'.tasks[t].processed == s.tasks[t].processed;
    hide Follows;
    assert forall k :: IsFiring(s', base, down, k) <==> IsFiring(s, base, down, k);
  }

  lemma RoundStarts(states: seq<State>, steps: seq<Step>, a: nat, n: nat, edges: set<Edge>, down: JobId, round: map<JobId, TaskId>)
    requires Run(states, steps) && a <= n < |states| && RoundOf(states, steps, a, n, edges, down, round)
    ensures round.Keys != {} && AllSucceeded(states[n], round)
    ensures OnTrack(states[a], states[n], |states[a].triggers|, down, round)
    ensures forall i | a <= i < n && steps[i].Pass? :: steps[i].edges == edges && down in steps[i].enabled
  {
  }

  lemma {:induction false} RoundStaysOnTrack(states: seq<State>, steps: seq<Step>, a: nat, i: nat, n: nat, edges: set<Edge>, down: JobId, round: map<JobId, TaskId>)
    requires Run(states, steps) && a <= i <= n < |states| && RoundOf(states, steps, a, n, edges, down, round)
    ensures AllSucceeded(states[n], round) && round.Keys != {} && OnTrack(states[i], states[n], |states[a].triggers|, down, round)
    decreases i
  {
    hide RoundOf, Follows, Within, OnTrack, Later, Timely, Recorded;
    RoundStarts(states, steps, a, n, edges, down, round);
    if i > a {
      RoundStaysOnTrack(states, steps, a, i - 1, n, edges, down, round);
      AlwaysWithin(states, steps, a, i - 1, n, edges, down, round);
      InRun(states, steps, i);
      StepStaysOnTrack(states[i - 1], steps[i - 1], states[i], states[n], |states[a].triggers|, edges, down, round);
    }
  }

  lemma InRun(states: seq<State>, steps: seq<Step>, i: nat)
    requires Run(states, steps) && 0 < i < |states|
    ensures Timely(states[i]) && Later(states[i - 1], states[i]) && Follows(states[i - 1], steps[i - 1], states[i])
  {
    RunsKeepRows(states, steps, i);
    SegmentIsLater(states, steps, i - 1, i);
  }

  /** Every interleaving of the round's completions with passes, whatever the batch limit
      makes of it, triggers the downstream job exactly once. */
  lemma FanInExactlyOnce(states: seq<State>, steps: seq<Step>, a: nat, n: nat, edges: set<Edge>, down: JobId, round: map<JobId, TaskId>)
    requires Run(states, steps) && a <= n < |states| && RoundOf(states, steps, a, n, edges, down, round)
    ensures round.Keys != {} && AllSucceeded(states[n], round)
    ensures OnceFor(states[n], |states[a].triggers|, down, RoundReady(states[n], round))
    ensures OneTask(states[n], |states[a].triggers|, down)
  {
    RoundStaysOnTrack(states, steps, a, n, n, edges, down, round);
    RunsKeepRows(states, steps, n);
    hide Run, RoundOf, Timely;
    OnceIsOneTask(states[n], |states[a].triggers|, down, RoundReady(states[n], round));
  }

  /** The triggers since then left exactly one task, a run of `down`. */
  ghost predicate OneTask(s: State, base: nat, down: JobId) {
    exists t :: t in s.tasks && s.tasks[t].job == down && Caused(s, base, down, t) && forall u | Caused(s, base, down, u) :: u == t
  }

  lemma OnceIsOneTask(s: State, base: nat, down: JobId, readyAt: int)
    requires Recorded(s) && OnceFor(s, base, down, readyAt)
    ensures OneTask(s, base, down)
  {
    var k :| IsFiring(s, base, down, k) && forall m | IsFiring(s, base, down, m) :: m == k;
    assert s.triggers[k] in s.triggers;
    assert Caused(s, base, down, s.triggers[k].task);
  }
}
