/** The job dependency graph: reachability, the descendant query, and acyclicity. */
module Graph {
  import opened Tasks
  import Counting

  /** (upstream job, downstream job) */
  type Edge = (JobId, JobId)

  ghost predicate Path(edges: set<Edge>, path: seq<JobId>) {
    |path| >= 2 && forall i | 0 <= i < |path| - 1 :: (path[i], path[i + 1]) in edges
  }

  ghost predicate Joins(edges: set<Edge>, path: seq<JobId>, a: JobId, b: JobId) {
    Path(edges, path) && path[0] == a && path[|path| - 1] == b
  }

  /** `b` is downstream of `a` by one or more edges. */
  ghost predicate Reaches(edges: set<Edge>, a: JobId, b: JobId) {
    exists path :: Joins(edges, path, a, b)
  }

  ghost predicate Acyclic(edges: set<Edge>) {
    forall j :: !Reaches(edges, j, j)
  }

  function Hop(edges: set<Edge>, from: set<JobId>): set<JobId> {
    set e | e in edges && e.0 in from :: e.1
  }

  lemma EdgeReaches(edges: set<Edge>, a: JobId, b: JobId)
    requires (a, b) in edges
    ensures Reaches(edges, a, b)
  {
    assert Joins(edges, [a, b], a, b);
  }

  lemma ReachesTransitive(edges: set<Edge>, a: JobId, b: JobId, c: JobId)
    requires Reaches(edges, a, b) && Reaches(edges, b, c)
    ensures Reaches(edges, a, c)
  {
    var p :| Joins(edges, p, a, b);
    var q :| Joins(edges, q, b, c);
    var r := p + q[1..];
    forall i | 0 <= i < |r| - 1
      ensures (r[i], r[i + 1]) in edges
    {
      if i >= |p| - 1 {
        assert r[i] == q[i - |p| + 1] && r[i + 1] == q[i - |p| + 2];
      }
    }
    assert Joins(edges, r, a, c);
  }

  /** A set closed under hops that holds the first hop holds everything reachable. */
  lemma {:induction false} ClosedHoldsPath(edges: set<Edge>, closed: set<JobId>, path: seq<JobId>)
    requires Path(edges, path) && Hop(edges, {path[0]}) <= closed && Hop(edges, closed) <= closed
    ensures path[|path| - 1] in closed
    decreases |path|
  {
    assert (path[0], path[1]) in edges;
    assert path[1] in Hop(edges, {path[0]});
    if |path| > 2 {
      assert Hop(edges, {path[1]}) <= Hop(edges, closed);
      ClosedHoldsPath(edges, closed, path[1..]);
    }
  }

  /** The recursive query with UNION: it ends on every finite graph, cyclic ones included,
      and returns exactly the jobs reachable by at least one edge. */
  method GetAllDescendants(edges: set<Edge>, job: JobId) returns (found: set<JobId>)
    ensures forall x :: x in found <==> Reaches(edges, job, x)
  {
    var working := Hop(edges, {job});
    found := working;
    ghost var targets := set e | e in edges :: e.1;
    forall x | x in found
      ensures Reaches(edges, job, x)
    {
      EdgeReaches(edges, job, x);
    }
    while working != {}
      invariant working <= found <= targets
      invariant Hop(edges, {job}) <= found
      invariant Hop(edges, found - working) <= found
      invariant forall x | x in found :: Reaches(edges, job, x)
      decreases targets - found, working
    {
      var next := Hop(edges, working) - found;
      forall x | x in next
        ensures Reaches(edges, job, x)
      {
        var u :| u in working && (u, x) in edges;
        EdgeReaches(edges, u, x);
        ReachesTransitive(edges, job, u, x);
      }
      assert next == {} ==> found + next == found;
      assert forall y | y in next :: y in targets - found && y !in targets - (found + next);
      found := found + next;
      working := next;
    }
    assert found - working == found;
    forall x | Reaches(edges, job, x)
      ensures x in found
    {
      var path :| Joins(edges, path, job, x);
      ClosedHoldsPath(edges, found, path);
    }
  }

  // ---- A check on the edited job alone ----

  /** Only edges at `job` may differ. */
  ghost predicate EditedAt(before: set<Edge>, after: set<Edge>, job: JobId) {
    forall e | e in after :: e in before || e.0 == job || e.1 == job
  }

  /** A cycle after the edit passes through the edited job. */
  lemma CycleThroughEdit(before: set<Edge>, after: set<Edge>, job: JobId, j: JobId)
    requires Acyclic(before) && EditedAt(before, after, job) && Reaches(after, j, j)
    ensures Reaches(after, job, job)
  {
    var path :| Joins(after, path, j, j);
    if job in path {
      var k :| 0 <= k < |path| && path[k] == job;
      if 0 < k < |path| - 1 {
        assert Joins(after, path[k..], job, j);
        assert Joins(after, path[..k + 1], j, job);
        ReachesTransitive(after, job, j, job);
      }
    } else {
      forall i | 0 <= i < |path| - 1
        ensures (path[i], path[i + 1]) in before
      {
        assert (path[i], path[i + 1]) in after;
      }
      assert Joins(before, path, j, j);
      assert Reaches(before, j, j);
    }
  }

  /** On an acyclic graph, asking only whether the edited job is its own descendant
      accepts exactly the edits that leave the whole graph acyclic. */
  lemma LocalCheckIsGlobal(before: set<Edge>, after: set<Edge>, job: JobId)
    requires Acyclic(before) && EditedAt(before, after, job)
    ensures Acyclic(after) <==> !Reaches(after, job, job)
  {
    forall j | Reaches(after, j, j)
      ensures Reaches(after, job, job)
    {
      CycleThroughEdit(before, after, job, j);
    }
  }

  /** Two jobs that are upstream of each other, or one that is its own upstream, make a cycle. */
  lemma MutualIsCyclic(edges: set<Edge>, a: JobId, b: JobId)
    requires (a, b) in edges && (b, a) in edges
    ensures !Acyclic(edges)
  {
    EdgeReaches(edges, a, b);
    EdgeReaches(edges, b, a);
    ReachesTransitive(edges, a, b, a);
  }

  lemma PathNeedsEdge(edges: set<Edge>, a: JobId, b: JobId)
    requires Reaches(edges, a, b)
    ensures edges != {}
  {
    var path :| Joins(edges, path, a, b);
    assert (path[0], path[1]) in edges;
  }

  lemma EmptyAcyclic()
    ensures Acyclic({})
  {
    forall j | Reaches({}, j, j) ensures false {
      PathNeedsEdge({}, j, j);
    }
  }

  lemma SubgraphAcyclic(before: set<Edge>, after: set<Edge>)
    requires Acyclic(before) && after <= before
    ensures Acyclic(after)
  {
    forall j | Reaches(after, j, j)
      ensures Reaches(before, j, j)
    {
      var path :| Joins(after, path, j, j);
      assert Joins(before, path, j, j);
    }
  }

  // ---- Topological rank ----

  function Upstreams(edges: set<Edge>, job: JobId): set<JobId> {
    set e | e in edges && e.1 == job :: e.0
  }

  lemma UpstreamsAre(edges: set<Edge>, job: JobId)
    ensures forall u :: u in Upstreams(edges, job) <==> (u, job) in edges
    ensures Upstreams(edges, job) == {} <==> forall u :: (u, job) !in edges
  {
    assert forall u | (u, job) in edges :: (u, job).0 in Upstreams(edges, job);
  }

  ghost function Ancestors(edges: set<Edge>, job: JobId): set<JobId> {
    set e | e in edges && Reaches(edges, e.0, job) :: e.0
  }

  /** In an acyclic graph an upstream has strictly fewer ancestors. */
  lemma UpstreamRank(edges: set<Edge>, up: JobId, job: JobId)
    requires Acyclic(edges) && (up, job) in edges
    ensures |Ancestors(edges, up)| < |Ancestors(edges, job)|
  {
    EdgeReaches(edges, up, job);
    forall a | a in Ancestors(edges, up)
      ensures a in Ancestors(edges, job)
    {
      ReachesTransitive(edges, a, up, job);
    }
    assert up in Ancestors(edges, job) && up !in Ancestors(edges, up);
    Counting.SubsetSize(Ancestors(edges, up), Ancestors(edges, job) - {up});
  }
}
