/**
 The job table and its transactions, in place (services/jobs.js and services/scheduler.js over
 repos/jobs.js and repos/nodes.js). Each method is one transaction; one that throws leaves the
 table as it was.
 */
module JobStore {
  import opened Prelude
  import opened Placement
  import opened Quota
  import opened JobLifecycle
  import opened Jobs

  class JobTable {
    var rows: seq<Job>
    var nodes: seq<Node>
    var quotas: map<nat, Quota>

    constructor (registered: seq<Node>, limits: map<nat, Quota>)
      ensures rows == [] && nodes == registered && quotas == limits
    {
      rows, nodes, quotas := [], registered, limits;
    }

    function View(): World
      reads this
    {
      World(rows, nodes, quotas, map[], [], map[], [])
    }

    /** The one place a state is written: refused when the move is not in the table. */
    method ApplyTransition(id: nat, to: State) returns (moved: bool)
      requires id < |rows|
      modifies this`rows
      ensures moved <==> to in Next(old(rows[id]).state)
      ensures rows == if moved then old(rows)[id := old(rows[id]).(state := to)] else old(rows)
    {
      moved := to in Next(rows[id].state);
      if moved {
        rows := rows[id := rows[id].(state := to)];
      }
    }

    method SubmitJob(project: nat, request: Request, priority: Priority, maxRetries: nat, at: int) returns (id: nat)
      modifies this`rows
      ensures id == |old(rows)| && rows == old(rows) + [Submitted(project, request, priority, maxRetries, at)]
    {
      id := |rows|;
      rows := rows + [Job(project, request, priority, at, CREATED, 0, maxRetries, None, false, None, None)];
      var moved := ApplyTransition(id, QUEUED);
      assert moved;
    }

    method CancelJob(id: nat) returns (ok: bool)
      requires id < |rows|
      modifies this`rows
      ensures ok <==> Changed(old(rows[id]), Cancelled).Some?
      ensures rows == old(rows)[id := Apply(old(rows[id]), Cancelled)]
    {
      var before := rows;
      var state := rows[id].state;
      if state.CANCELLED? || state.CANCELLING? || state.SUCCEEDED? {
        ok := false;
      } else if state.CREATED? {
        ok := ApplyTransition(id, CANCELLED);
      } else if state.SCHEDULING? || state.STARTING? || state.RUNNING? {
        ok := ApplyTransition(id, CANCELLING);
      } else {
        ok := ApplyTransition(id, CANCELLING);
        if ok {
          ok := ApplyTransition(id, CANCELLED);
        }
      }
      assert before == before[id := before[id]];
    }

    /** The first claimable row: by priority, then by when it was queued. */
    method LockNextQueuedJob(exclude: set<nat>) returns (next: Option<nat>)
      ensures next == NextQueued(rows, exclude, |rows|)
    {
      next := None;
      var j := 0;
      while j < |rows|
        invariant 0 <= j <= |rows|
        invariant next == NextQueued(rows, exclude, j)
      {
        if rows[j].state.QUEUED? && j !in exclude && (next.None? || Precedes(rows[j], rows[next.value])) {
          next := Some(j);
        }
        j := j + 1;
      }
    }

    /** Claims it: the lock and the move to SCHEDULING in one transaction. */
    method ClaimNextJob(exclude: set<nat>) returns (claimed: Option<nat>)
      modifies this`rows
      ensures claimed == NextQueued(old(rows), exclude, |old(rows)|)
      ensures rows == if claimed.None? then old(rows) else old(rows)[claimed.value := Apply(old(rows)[claimed.value], Claimed)]
    {
      claimed := LockNextQueuedJob(exclude);
      if claimed.Some? {
        var moved := ApplyTransition(claimed.value, SCHEDULING);
        assert moved;
      }
    }

    /** What is committed on a node, summed over the jobs that occupy it. */
    method Committed(node: nat) returns (r: Resources)
      ensures r == Resources(Load(View(), node, Cpus), Load(View(), node, Bytes), Load(View(), node, Gpus))
    {
      r := Resources(0, 0, 0);
      var j := 0;
      while j < |rows|
        invariant 0 <= j <= |rows|
        invariant r == Resources(Total(rows[..j], HeldOn(node, Cpus)), Total(rows[..j], HeldOn(node, Bytes)),
                                 Total(rows[..j], HeldOn(node, Gpus)))
      {
        assert rows[..j + 1][..j] == rows[..j];
        if Occupying(rows[j].state) && rows[j].node == Some(node) {
          var q := rows[j].request;
          r := Resources(r.cpu + q.cpu, r.memory + q.memory, r.gpu + q.gpu);
        }
        j := j + 1;
      }
      assert rows[..j] == rows;
    }

    method ReadClusterView() returns (view: seq<Node>)
      ensures view == ClusterView(View())
    {
      view := [];
      var i := 0;
      while i < |nodes|
        invariant 0 <= i <= |nodes|
        invariant view == ClusterView(View())[..i]
      {
        var committed := Committed(nodes[i].name);
        view := view + [nodes[i].(committed := committed)];
        i := i + 1;
      }
    }

    /** What a project holds, by each measure. */
    method ProjectUsage(project: nat) returns (jobs: int, gpu: int, cpu: int, bytes: int)
      ensures jobs == Total(rows, HeldBy(project, Measure.Jobs)) && gpu == Total(rows, HeldBy(project, Gpus))
      ensures cpu == Total(rows, HeldBy(project, Cpus)) && bytes == Total(rows, HeldBy(project, Bytes))
    {
      jobs, gpu, cpu, bytes := 0, 0, 0, 0;
      var j := 0;
      while j < |rows|
        invariant 0 <= j <= |rows|
        invariant jobs == Total(rows[..j], HeldBy(project, Measure.Jobs)) && gpu == Total(rows[..j], HeldBy(project, Gpus))
        invariant cpu == Total(rows[..j], HeldBy(project, Cpus)) && bytes == Total(rows[..j], HeldBy(project, Bytes))
      {
        assert rows[..j + 1][..j] == rows[..j];
        if Occupying(rows[j].state) && rows[j].project == project {
          var q := rows[j].request;
          jobs, gpu, cpu, bytes := jobs + 1, gpu + q.gpu, cpu + q.cpu, bytes + q.memory;
        }
        j := j + 1;
      }
      assert rows[..j] == rows;
    }

    /** Whether the project can afford the job, its own request not charged twice. */
    method Affords(id: nat) returns (breach: Option<Measure>)
      requires id < |rows|
      ensures breach == CheckQuota(rows[id].request, QuotaOf(View(), rows[id].project), UsageWithout(View(), rows[id]))
    {
      hide Total, HeldBy;
      var row := rows[id];
      var quota := if row.project in quotas then quotas[row.project] else Quota(0, 0, 0, 0);
      var jobs, gpu, cpu, bytes := ProjectUsage(row.project);
      var used: Measure -> int := (m: Measure) =>
        match m
        case Jobs => jobs - 1
        case Gpus => gpu - row.request.gpu
        case Cpus => cpu - row.request.cpu
        case Bytes => bytes - row.request.memory;
      SameUsage(row.request, quota, used, UsageWithout(View(), row), 0);
      breach := CheckQuota(row.request, quota, used);
    }

    /** The two gates. */
    method Decide(id: nat) returns (node: Option<nat>)
      requires id < |rows|
      ensures node == Decided(View(), id)
    {
      hide CheckQuota, PlaceJob, ClusterView, QuotaOf, UsageWithout;
      var breach := Affords(id);
      if breach.Some? {
        return None;
      }
      var view := ReadClusterView();
      var placed := PlaceJob(rows[id].request, view);
      return if placed.node.None? then None else Some(placed.node.value.name);
    }

    /** The scheduling pass: both gates, then the binding or the return to the queue. */
    method ScheduleJob(id: nat) returns (node: Option<nat>)
      requires id < |rows|
      modifies this`rows
      ensures node == Decided(old(View()), id)
      ensures rows == old(rows)[id := Apply(old(rows[id]), if node.Some? then Bound(node.value) else Requeued)]
    {
      hide Decided;
      node := Decide(id);
      var row := rows[id];
      if node.Some? {
        rows := rows[id := row.(node := node)];
      } else if QUEUED in Next(row.state) {
        rows := rows[id := row.(node := None, state := QUEUED)];
      } else {
        assert rows == rows[id := row];
      }
    }

    /** Records the Job created and moves the row; rolled back when the move is refused. */
    method MarkLaunched(id: nat, named: nat) returns (ok: bool)
      requires id < |rows|
      modifies this`rows
      ensures ok <==> Changed(old(rows[id]), Launched(named)).Some?
      ensures rows == old(rows)[id := Apply(old(rows[id]), Launched(named))]
    {
      var before := rows;
      rows := rows[id := rows[id].(k8sJob := Some(named))];
      ok := ApplyTransition(id, STARTING);
      if !ok {
        rows := before;
      }
      assert before == before[id := before[id]];
    }

    method FinishCancellation(id: nat) returns (ok: bool)
      requires id < |rows|
      modifies this`rows
      ensures ok <==> Changed(old(rows[id]), CancellationFinished).Some?
      ensures rows == old(rows)[id := Apply(old(rows[id]), CancellationFinished)]
    {
      var before := rows;
      ok := ApplyTransition(id, CANCELLED);
      assert before == before[id := before[id]];
    }

    /** What the cluster reports, or that the workload is gone; false when that is no legal move. */
    method RecordObservation(id: nat, seen: Phase) returns (ok: bool)
      requires id < |rows|
      modifies this`rows
      ensures ok <==> Changed(old(rows[id]), Observed(seen)).Some?
      ensures rows == old(rows)[id := Apply(old(rows[id]), Observed(seen))]
    {
      var before := rows;
      assert before == before[id := before[id]];
      if rows[id].state.CANCELLING? || Finished(rows[id].state) {
        return true;
      }
      ok := true;
      match seen {
        case PodPending =>
        case PodRunning =>
          if !rows[id].state.RUNNING? {
            ok := ApplyTransition(id, RUNNING);
          }
        case PodSucceeded =>
          // The run is recorded through RUNNING even when it was never seen there.
          if rows[id].state.STARTING? {
            ok := ApplyTransition(id, RUNNING);
          }
          ok := ApplyTransition(id, SUCCEEDED);
        case PodFailed(transient) =>
          ok := ApplyTransition(id, State.FAILED);
          if ok {
            rows := rows[id := rows[id].(transient := transient)];
          }
        case Gone(transient) =>
          ok := ApplyTransition(id, State.FAILED);
          if ok {
            rows := rows[id := rows[id].(transient := transient)];
          }
      }
    }

    /** Rules on a job and acts on the ruling; `applied` says whether a retry was issued. */
    method ConsiderRetry(id: nat) returns (applied: bool)
      requires id < |rows|
      modifies this`rows
      ensures applied <==> old(rows[id]).ruling.None? && DecideRetry(old(rows[id])) == RETRY
      ensures rows == old(rows)[id := Apply(old(rows[id]), Ruled)]
    {
      var before := rows;
      assert before == before[id := before[id]];
      if rows[id].ruling.Some? {
        return false;
      }
      var verdict := DecideRetry(rows[id]);
      if verdict != RETRY {
        rows := rows[id := rows[id].(ruling := Some(verdict))];
        return false;
      }
      var retrying := ApplyTransition(id, RETRYING);
      rows := rows[id := PrepareRetry(rows[id])];
      var queued := ApplyTransition(id, QUEUED);
      assert retrying && queued;
      return true;
    }
  }

  lemma {:induction false} SameUsage(r: Request, q: Quota, u: Measure -> int, v: Measure -> int, from: nat)
    requires from <= |CHECKS| && forall m :: u(m) == v(m)
    ensures FirstBreach(r, q, u, from) == FirstBreach(r, q, v, from)
    decreases |CHECKS| - from
  {
    if from < |CHECKS| {
      SameUsage(r, q, u, v, from + 1);
    }
  }
}
