/** The task table's writers, as the program runs them: each commits one row. */
module TaskRepository {
  import opened Tasks

  ghost function Recovered(rows: map<TaskId, Row>, now: int): map<TaskId, Row> {
    map t | t in rows :: if Expired(rows[t], now) then Released(rows[t]) else rows[t]
  }

  function ExpiredIds(rows: map<TaskId, Row>, now: int): set<TaskId> {
    set t | t in rows && Expired(rows[t], now)
  }

  /** Recovery touches only expired rows, leaves none, and makes each claimable again. */
  lemma RecoveredShape(rows: map<TaskId, Row>, now: int, t: TaskId)
    requires t in rows
    ensures !Expired(Recovered(rows, now)[t], now)
    ensures Recovered(rows, now)[t] != rows[t] ==> rows[t].status == Running && Recovered(rows, now)[t].status == Pending
    ensures Recovered(Recovered(rows, now), now) == Recovered(rows, now)
  {
    assert forall u | u in rows :: !Expired(Recovered(rows, now)[u], now);
  }

  /** A claim, with any heartbeats after it, is undone by recovery: the row can be claimed
      again as if it had never been. */
  lemma ReleaseUndoesClaim(row: Row, worker: WorkerId, stamp: int, lease: int, until: int)
    requires row.status == Pending && row.lockedBy == None && row.lockedUntil == None && row.startedAt == None
    ensures Released(Claimed(row, worker, stamp, lease)) == row
    ensures Released(Extended(Claimed(row, worker, stamp, lease), worker, until)) == row
  {
  }

  /** A result takes an arrow of the status diagram, fixes the completion time, and leaves a
      row that no claim, heartbeat or recovery read will touch; its routing stays readable. */
  lemma FinishSettles(row: Row, status: Status, at: int, worker: WorkerId, until: int, now: int)
    requires row.status == Running && Terminal(status)
    ensures
      var done := Finished(row, status, at);
      && Arrow(row.status, done.status) && CompletedAt(done) == at && Route(done) == Route(row)
      && done.status != Pending && Extended(done, worker, until) == done && !Expired(done, now)
  {
  }

  /** `order` lists `ids`, each once. */
  ghost predicate Enumerates(order: seq<TaskId>, ids: set<TaskId>) {
    && (forall t :: t in order <==> t in ids)
    && (forall i, k | 0 <= i < k < |order| :: order[i] != order[k])
  }

  /** The write for each listed row, on whatever table it found. */
  ghost predicate Releases(order: seq<TaskId>, seen: seq<map<TaskId, Row>>, written: seq<map<TaskId, Row>>) {
    && |written| <= |order| == |seen|
    && forall i | 0 <= i < |written| :: order[i] in seen[i] && written[i] == seen[i][order[i] := Released(seen[i][order[i]])]
  }

  ghost function ReleasedOnly(rows: map<TaskId, Row>, order: seq<TaskId>): map<TaskId, Row> {
    map t | t in rows :: if t in order then Released(rows[t]) else rows[t]
  }

  lemma ReleaseNext(rows: map<TaskId, Row>, order: seq<TaskId>, t: TaskId)
    requires t in rows && t !in order
    ensures ReleasedOnly(rows, order)[t := Released(ReleasedOnly(rows, order)[t])] == ReleasedOnly(rows, order + [t])
  {
  }

  /** Nobody writes the table between the read and the writes. */
  ghost predicate Undisturbed(rows: map<TaskId, Row>, seen: seq<map<TaskId, Row>>, written: seq<map<TaskId, Row>>) {
    && |written| == |seen| > 0 && seen[0] == rows
    && forall i | 1 <= i < |seen| :: HandedOn(seen, written, i)
  }

  ghost predicate HandedOn(seen: seq<map<TaskId, Row>>, written: seq<map<TaskId, Row>>, i: nat)
    requires 1 <= i < |seen| == |written|
  {
    seen[i] == written[i - 1]
  }

  lemma {:induction false} ReleasedSoFar(rows: map<TaskId, Row>, order: seq<TaskId>, seen: seq<map<TaskId, Row>>, written: seq<map<TaskId, Row>>, k: nat)
    requires Releases(order, seen, written) && Undisturbed(rows, seen, written) && k < |written|
    requires forall i, j | 0 <= i < j < |order| :: order[i] != order[j]
    requires forall t | t in order :: t in rows
    ensures written[k] == ReleasedOnly(rows, order[..k + 1])
  {
    if k > 0 {
      ReleasedSoFar(rows, order, seen, written, k - 1);
    }
    assert seen[k] == ReleasedOnly(rows, order[..k]) by {
      assert k > 0 ==> HandedOn(seen, written, k);
    }
    var now := seen[k];
    assert written[k] == now[order[k] := Released(now[order[k]])];
    assert order[k] !in order[..k];
    assert order[..k + 1] == order[..k] + [order[k]];
    hide ReleasedOnly, Releases, Undisturbed;
    ReleaseNext(rows, order[..k], order[k]);
  }

  /** Then the pass releases exactly the expired rows. */
  lemma UndisturbedRecovery(rows: map<TaskId, Row>, now: int, order: seq<TaskId>, seen: seq<map<TaskId, Row>>, written: seq<map<TaskId, Row>>)
    requires Enumerates(order, ExpiredIds(rows, now)) && Releases(order, seen, written) && Undisturbed(rows, seen, written)
    ensures written[|order| - 1] == Recovered(rows, now)
  {
    var n := |order| - 1;
    ReleasedSoFar(rows, order, seen, written, n);
    assert order[..n + 1] == order;
  }

  class TaskTable {
    var rows: map<TaskId, Row>

    constructor ()
      ensures rows == map[]
    {
      rows := map[];
    }

    /** The conditional update: moves a task from pending to running, or changes nothing. */
    method Claim(id: TaskId, worker: WorkerId, stamp: int, lease: int) returns (won: bool)
      modifies this
      ensures won <==> id in old(rows) && old(rows)[id].status == Pending
      ensures won ==> rows == old(rows)[id := old(rows)[id].(status := Running, lockedBy := Some(worker), lockedUntil := Some(stamp + lease), startedAt := Some(stamp))]
      ensures !won ==> rows == old(rows)
    {
      won := id in rows && rows[id].status == Pending;
      if won {
        rows := rows[id := Claimed(rows[id], worker, stamp, lease)];
      }
    }

    /** The heartbeat's update; a missing row is matched by nothing. */
    method Extend(id: TaskId, worker: WorkerId, until: int)
      modifies this
      ensures id in old(rows) && old(rows)[id].lockedBy == Some(worker) ==> rows == old(rows)[id := old(rows)[id].(lockedUntil := Some(until))]
      ensures id !in old(rows) || old(rows)[id].lockedBy != Some(worker) ==> rows == old(rows)
    {
      if id in rows {
        rows := rows[id := Extended(rows[id], worker, until)];
      }
    }

    method Finish(id: TaskId, status: Status, at: int)
      requires id in rows
      modifies this
      ensures rows == old(rows)[id := old(rows)[id].(status := status, lockedBy := None, lockedUntil := None, finishedAt := Some(at))]
    {
      rows := rows[id := Finished(rows[id], status, at)];
    }

    method Release(id: TaskId)
      requires id in rows
      modifies this
      ensures rows == old(rows)[id := old(rows)[id].(status := Pending, lockedBy := None, lockedUntil := None, startedAt := None)]
    {
      rows := rows[id := Released(rows[id])];
    }

    /** One recovery pass: the read returns the expired rows as `order`; before the i-th write
        others have made the table `seen[i]`. A row that has vanished ends the pass. */
    method RecoverOrphans(now: int, order: seq<TaskId>, seen: seq<map<TaskId, Row>>)
      returns (count: Option<nat>, ghost written: seq<map<TaskId, Row>>)
      requires Enumerates(order, ExpiredIds(rows, now)) && |seen| == |order|
      modifies this
      ensures Releases(order, seen, written)
      ensures |written| < |order| ==> count == None && order[|written|] !in seen[|written|] && rows == seen[|written|]
      ensures |written| == |order| ==> count == Some(|order|)
      ensures |written| == |order| > 0 ==> rows == written[|order| - 1]
      ensures order == [] ==> rows == old(rows)
    {
      written := [];
      for i := 0 to |order|
        invariant |written| == i && Releases(order, seen, written)
        invariant i > 0 ==> rows == written[i - 1]
        invariant i == 0 ==> rows == old(rows)
      {
        rows := seen[i];
        if order[i] !in rows {
          return None, written;
        }
        Release(order[i]);
        written := written + [rows];
      }
      count := Some(|order|);
    }
  }
}
