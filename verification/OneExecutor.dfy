/**
 What a run with a single executor keeps, whatever it is interrupted by: users submitting and
 cancelling, Jobs vanishing from the cluster, and the executor itself crashing.
 */
module OneExecutor {
  import opened Prelude
  import opened Placement
  import opened Quota
  import opened JobLifecycle
  import opened Jobs
  import opened JobRuns
  import N = LaunchNames
  import P = Orphans

  const SOLE: nat := 0

  predicate Sole(ev: Event) {
    ByExecutor(ev) ==> ev.exec == SOLE
  }

  // ---------------------------------------------------------------- the invariant

  predicate Launchable(s: State) {
    s.SCHEDULING? || s.CANCELLING?
  }

  /** Queued jobs hold no node, launched ones do, the Job recorded is the attempt's, and only a failed job stands refused. */
  predicate RowBound(row: Job) {
    && (row.state.QUEUED? ==> row.node.None?)
    && (row.state.STARTING? || row.state.RUNNING? ==> row.node.Some?)
    && (row.k8sJob.Some? ==> row.k8sJob.value == row.attempt)
    && (row.ruling.Some? ==> row.state.FAILED? && row.ruling.value == DecideRetry(row) != RETRY)
  }

  /** A row that was read is as it was, but for a cancel. */
  predicate Fresh(read: Job, row: Job) {
    && Occupying(read.state)
    && read.attempt == row.attempt && read.node == row.node && read.k8sJob == row.k8sJob
    && (row.state == read.state || row.state.CANCELLING?)
  }

  /** The job whose row a task will go on to rely on. */
  function JobOf(t: Task): Option<nat> {
    match t
    case Rereading(j) => Some(j)
    case Launching(launch) => Some(launch.job)
    case Finishing(j) => Some(j)
    case Recording(j, _) => Some(j)
    case _ => None
  }

  /** The row is as what is still to be done takes it to be. */
  predicate UnderWay(t: Task, row: Job) {
    match t
    case Rereading(_) => row.node.Some? && Launchable(row.state)
    case Launching(launch) => row.attempt == launch.attempt && row.node.Some? && Launchable(row.state)
    case Finishing(_) => row.state.CANCELLING?
    case Recording(_, _) => row.state.STARTING? || row.state.RUNNING? || row.state.CANCELLING?
    case _ => true
  }

  ghost predicate Remembers(x: Exec, jobs: seq<Job>) {
    && (forall j :: j in x.listed ==> j < |jobs| && Fresh(x.listed[j], jobs[j]))
    && (forall j :: j in x.failed ==> j < |jobs| && AwaitsRuling(jobs[j]))
    && (JobOf(x.task).Some? ==>
        JobOf(x.task).value < |jobs| && JobOf(x.task).value !in x.listed && UnderWay(x.task, jobs[JobOf(x.task).value]))
  }

  /** A teardown between its two halves has left no Job of the attempt. */
  ghost predicate TornDown(w: World) {
    var task := ExecOf(w, SOLE).task;
    task.Finishing? && task.job < |w.jobs| ==> (task.job, w.jobs[task.job].attempt) !in w.cluster
  }

  /** A Job in the cluster belongs to an attempt; the current attempt's means a node, and no end to a cancel. */
  predicate JobBelongs(k: (nat, nat), jobs: seq<Job>) {
    && k.0 < |jobs| && k.1 <= jobs[k.0].attempt
    && (k.1 == jobs[k.0].attempt ==> jobs[k.0].node.Some? && !jobs[k.0].state.CANCELLED?)
  }

  ghost predicate RowsBound(jobs: seq<Job>) {
    forall j :: 0 <= j < |jobs| ==> RowBound(jobs[j])
  }

  ghost predicate ClusterBelongs(w: World) {
    forall k :: k in w.cluster ==> JobBelongs(k, w.jobs)
  }

  ghost predicate Inv(w: World) {
    RowsSound(w.jobs) && RowsBound(w.jobs) && Remembers(ExecOf(w, SOLE), w.jobs) && ClusterBelongs(w) && TornDown(w)
  }

  // ----------------------------------------------------- every write finds its row

  /** The row is as the transaction takes it to be. */
  predicate Apt(row: Job, c: Change) {
    match c
    case Cancelled => true
    case Claimed => row.state.QUEUED?
    case Requeued => Launchable(row.state) && row.node.None?
    case Bound(_) => Launchable(row.state) && row.node.None?
    case Launched(named) => Launchable(row.state) && row.node.Some? && named == row.attempt
    case CancellationFinished => row.state.CANCELLING?
    case Observed(_) => row.state.STARTING? || row.state.RUNNING? || row.state.CANCELLING?
    case Ruled => AwaitsRuling(row)
  }

  lemma WritesAreApt(w: World, ev: Event)
    requires Inv(w) && Sole(ev) && WriteOf(w, ev).Some?
    ensures Apt(w.jobs[WriteOf(w, ev).value.job], WriteOf(w, ev).value.change)
  {
    hide Decided, Shown, NextQueued, RowsSound, ClusterBelongs, AwaitsRuling;
  }

  lemma AptKeepsBound(row: Job, c: Change)
    requires RowBound(row) && Apt(row, c)
    ensures RowBound(Apply(row, c))
  {
  }

  lemma StepKeepsBound(w: World, ev: Event)
    requires Inv(w) && Sole(ev)
    ensures RowsBound(JobsAfter(w, ev))
  {
    hide JobsAfter, Apply, RowBound, Apt, WriteOf, Remembers, ClusterBelongs;
    if WriteOf(w, ev).Some? {
      WritesAreApt(w, ev);
    }
    forall j | 0 <= j < |JobsAfter(w, ev)| ensures RowBound(JobsAfter(w, ev)[j]) {
      if j < |w.jobs| {
        RowAfter(w, ev, j);
        if WriteOf(w, ev).Some? && WriteOf(w, ev).value.job == j {
          AptKeepsBound(w.jobs[j], WriteOf(w, ev).value.change);
        }
      } else {
        NewRows(w, ev, j);
        NewRowBound(ev.project, ev.request, ev.priority, ev.maxRetries, ev.at);
      }
    }
  }

  lemma NewRowBound(project: nat, request: Request, priority: Priority, maxRetries: nat, at: int)
    ensures RowBound(Submitted(project, request, priority, maxRetries, at))
  {
  }

  // ------------------------------------------------------------- the cluster's Jobs

  /** What a change may do to a Job of the row's attempt. */
  lemma BelongingKept(k: (nat, nat), w: World, ev: Event)
    requires Inv(w) && Sole(ev) && JobBelongs(k, w.jobs)
    requires k in ClusterAfter(w, ev)
    ensures JobBelongs(k, JobsAfter(w, ev))
  {
    hide JobsAfter, WriteOf, Remembers, ClusterBelongs, ClusterAfter, RowsSound, RowsBound;
    RowAfter(w, ev, k.0);
    assert RowSound(w.jobs[k.0]) && RowBound(w.jobs[k.0]) by { RowFacts(w, k.0); }
    if WriteOf(w, ev).Some? && WriteOf(w, ev).value.job == k.0 {
      WritesAreApt(w, ev);
      if WriteOf(w, ev).value.change.CancellationFinished? {
        FinishingDeletes(w, ev);
      }
    }
  }

  lemma RowFacts(w: World, j: nat)
    requires Inv(w) && j < |w.jobs|
    ensures RowSound(w.jobs[j]) && RowBound(w.jobs[j])
  {
    hide RowSound, RowBound, Remembers, ClusterBelongs;
  }

  /** The teardown that finishes a cancel has deleted the Job of the attempt. */
  lemma FinishingDeletes(w: World, ev: Event)
    requires Inv(w) && Sole(ev)
    requires WriteOf(w, ev).Some? && WriteOf(w, ev).value.change.CancellationFinished?
    ensures var j := WriteOf(w, ev).value.job; (j, w.jobs[j].attempt) !in ClusterAfter(w, ev)
  {
    hide Decided, Shown, NextQueued, RowsSound, RowsBound, ClusterBelongs, Remembers;
  }

  /** The first half of a teardown deletes the Job of the attempt, which is the one recorded if any is. */
  lemma StepKeepsTornDown(w: World, ev: Event)
    requires Inv(w) && Sole(ev)
    ensures TornDown(Step(w, ev))
  {
    hide JobsAfter, ClusterAfter, TokensAfter, StartsAfter, RowsSound, RowsBound, ClusterBelongs, Remembers, WriteOf, Decided;
    var before, after := ExecOf(w, SOLE).task, ExecOf(Step(w, ev), SOLE).task;
    if after.Finishing? && after.job < |JobsAfter(w, ev)| {
      FinishingFrom(w, ev);
      RowAfter(w, ev, after.job);
      if before == after {
        NotCreating(w, ev);
      } else {
        TearingDeletes(w, ev);
      }
    }
  }

  lemma FinishingFrom(w: World, ev: Event)
    requires Inv(w) && Sole(ev) && ExecOf(Step(w, ev), SOLE).task.Finishing?
    ensures var before, after := ExecOf(w, SOLE).task, ExecOf(Step(w, ev), SOLE).task;
      && after.job < |w.jobs|
      && (WriteOf(w, ev).Some? && WriteOf(w, ev).value.job == after.job ==>
          Apply(w.jobs[after.job], WriteOf(w, ev).value.change).attempt == w.jobs[after.job].attempt)
      && (before == after
          || (ev.Handle? && after.job == ev.job && TakesUp(w, SOLE, ev.job) && ExecOf(w, SOLE).listed[ev.job].state.CANCELLING?))
  {
    hide JobsAfter, ClusterAfter, TokensAfter, StartsAfter, RowsSound, RowsBound, ClusterBelongs, Decided, Shown, NextQueued;
  }

  lemma NotCreating(w: World, ev: Event)
    requires Sole(ev) && ExecOf(w, SOLE).task.Finishing?
    ensures forall k :: k in ClusterAfter(w, ev) ==> k in w.cluster
  {
  }

  lemma TearingDeletes(w: World, ev: Event)
    requires Inv(w) && ev.Handle? && ev.exec == SOLE && TakesUp(w, SOLE, ev.job)
    requires ExecOf(w, SOLE).listed[ev.job].state.CANCELLING?
    ensures (ev.job, w.jobs[ev.job].attempt) !in ClusterAfter(w, ev)
  {
    hide RowsSound, ClusterBelongs;
    assert RowBound(w.jobs[ev.job]);
  }

  /** A Job is created only for a launch under way. */
  lemma CreatedBelongs(k: (nat, nat), w: World, ev: Event)
    requires Inv(w) && Sole(ev) && k in ClusterAfter(w, ev) && k !in w.cluster
    ensures JobBelongs(k, w.jobs)
  {
    hide RowsSound, RowsBound, ClusterBelongs, TakesUp;
  }

  lemma StepKeepsCluster(w: World, ev: Event)
    requires Inv(w) && Sole(ev)
    ensures forall k :: k in ClusterAfter(w, ev) ==> JobBelongs(k, JobsAfter(w, ev))
  {
    hide JobsAfter, ClusterAfter, JobBelongs, RowsSound, RowsBound, Remembers;
    forall k | k in ClusterAfter(w, ev) ensures JobBelongs(k, JobsAfter(w, ev)) {
      if k !in w.cluster {
        CreatedBelongs(k, w, ev);
      }
      BelongingKept(k, w, ev);
    }
  }

  // ------------------------------------------------------- what the executor remembers

  /** A cancel leaves what was read of a row fresh, a launch under way, and a failure alone. */
  lemma CancelledRow(read: Job, task: Task, row: Job)
    ensures Fresh(read, row) ==> Fresh(read, Apply(row, Cancelled))
    ensures UnderWay(task, row) ==> UnderWay(task, Apply(row, Cancelled))
    ensures AwaitsRuling(row) ==> Apply(row, Cancelled) == row
  {
  }

  /** Writing one row leaves memory of the others as it was. */
  lemma MemoryOfOthers(x: Exec, jobs: seq<Job>, j: nat, row: Job)
    requires Remembers(x, jobs) && j < |jobs|
    requires j in x.listed ==> Fresh(x.listed[j], row)
    requires j in x.failed ==> AwaitsRuling(row)
    requires JobOf(x.task) == Some(j) ==> UnderWay(x.task, row)
    ensures Remembers(x, jobs[j := row])
  {
    hide Fresh, AwaitsRuling, UnderWay;
  }

  lemma CancelKeepsMemory(w: World, j: nat)
    requires Remembers(ExecOf(w, SOLE), w.jobs) && j < |w.jobs|
    ensures Remembers(ExecOf(w, SOLE), w.jobs[j := Apply(w.jobs[j], Cancelled)])
  {
    hide Fresh, AwaitsRuling, UnderWay, Apply;
    var x := ExecOf(w, SOLE);
    if j in x.listed {
      CancelledRow(x.listed[j], x.task, w.jobs[j]);
    }
    CancelledRow(w.jobs[j], x.task, w.jobs[j]);
    MemoryOfOthers(x, w.jobs, j, Apply(w.jobs[j], Cancelled));
  }

  lemma SubmitKeepsMemory(x: Exec, jobs: seq<Job>, row: Job)
    requires Remembers(x, jobs)
    ensures Remembers(x, jobs + [row])
  {
    hide Fresh, AwaitsRuling, UnderWay;
  }

  /** Forgetting never misremembers. */
  lemma Forgetting(x: Exec, y: Exec, jobs: seq<Job>)
    requires Remembers(x, jobs)
    requires y.listed.Keys <= x.listed.Keys && forall j :: j in y.listed ==> y.listed[j] == x.listed[j]
    requires y.failed <= x.failed && (JobOf(y.task).None? || y.task == x.task)
    ensures Remembers(y, jobs)
  {
    hide Fresh, AwaitsRuling, UnderWay;
  }

  lemma OutsideKeepsMemory(w: World, ev: Event)
    requires Inv(w) && !ByExecutor(ev)
    ensures Remembers(ExecOf(Step(w, ev), SOLE), JobsAfter(w, ev))
  {
    hide Remembers, RowsSound, RowsBound, ClusterBelongs, Apply;
    if ev.Cancel? && ev.job < |w.jobs| {
      CancelKeepsMemory(w, ev.job);
    } else if ev.Submit? {
      SubmitKeepsMemory(ExecOf(w, SOLE), w.jobs, Submitted(ev.project, ev.request, ev.priority, ev.maxRetries, ev.at));
    }
  }

  lemma ListingKeepsMemory(w: World)
    requires Remembers(ExecOf(w, SOLE), w.jobs)
    ensures Remembers(ExecAfter(w, List(SOLE), SOLE), w.jobs)
    ensures Remembers(ExecAfter(w, ListFailed(SOLE), SOLE), w.jobs)
  {
    hide AwaitsRuling, UnderWay;
  }

  lemma LaunchingKeepsMemory(w: World, ev: Event)
    requires Remembers(ExecOf(w, SOLE), w.jobs) && (ev.IssueToken? || ev.CreateJob? || ev.Reread?) && ev.exec == SOLE
    ensures Remembers(ExecAfter(w, ev, SOLE), w.jobs)
  {
    hide AwaitsRuling, Fresh;
  }

  lemma MarkingKeepsMemory(w: World)
    requires Inv(w)
    ensures Remembers(ExecAfter(w, MarkLaunched(SOLE), SOLE), JobsAfter(w, MarkLaunched(SOLE)))
  {
    hide Fresh, RowsSound, RowsBound, ClusterBelongs, Apply;
    var x, ev := ExecOf(w, SOLE), MarkLaunched(SOLE);
    if WriteOf(w, ev).Some? {
      var j := x.task.launch.job;
      var y := x.(task := Resting);
      assert j !in y.failed;
      MemoryOfOthers(y, w.jobs, j, Apply(w.jobs[j], Launched(x.task.launch.attempt)));
    }
  }

  /** Ending a cancel, or recording what was seen, leaves nothing to be done to the row. */
  lemma EndingKeepsMemory(w: World, ev: Event)
    requires Inv(w) && (ev.FinishCancel? || ev.Record?) && ev.exec == SOLE
    ensures Remembers(ExecAfter(w, ev, SOLE), JobsAfter(w, ev))
  {
    hide Fresh, RowsSound, RowsBound, ClusterBelongs, Apply, Ends;
    var x := ExecOf(w, SOLE);
    var y := ExecAfter(w, ev, SOLE);
    if WriteOf(w, ev).Some? {
      var j := WriteOf(w, ev).value.job;
      assert j !in y.listed && j !in y.failed;
      MemoryOfOthers(y, w.jobs, j, Apply(w.jobs[j], WriteOf(w, ev).value.change));
    }
  }

  lemma RulingKeepsMemory(w: World, j: nat)
    requires Inv(w)
    ensures Remembers(ExecAfter(w, Rule(SOLE, j), SOLE), JobsAfter(w, Rule(SOLE, j)))
  {
    hide RowsSound, RowsBound, ClusterBelongs, Apply;
    var x, ev := ExecOf(w, SOLE), Rule(SOLE, j);
    if WriteOf(w, ev).Some? {
      var y := x.(failed := x.failed - {j});
      assert j !in y.listed;
      MemoryOfOthers(y, w.jobs, j, Apply(w.jobs[j], Ruled));
    }
  }

  lemma ClaimedRow(row: Job)
    requires row.state.QUEUED?
    ensures Fresh(Apply(row, Claimed), Apply(row, Claimed))
  {
  }

  lemma ClaimingKeepsMemory(w: World, exclude: set<nat>)
    requires Inv(w)
    ensures Remembers(ExecAfter(w, Claim(SOLE, exclude), SOLE), JobsAfter(w, Claim(SOLE, exclude)))
  {
    hide RowsSound, RowsBound, ClusterBelongs, Apply, NextQueued;
    var x, ev := ExecOf(w, SOLE), Claim(SOLE, exclude);
    if WriteOf(w, ev).Some? {
      var j := WriteOf(w, ev).value.job;
      var row := Apply(w.jobs[j], Claimed);
      assert j !in x.listed && j !in x.failed;
      ClaimedRow(w.jobs[j]);
      MemoryOfOthers(x, w.jobs, j, row);
      NoteRead(x, w.jobs[j := row], j, row);
    }
  }

  lemma NoteRead(x: Exec, jobs: seq<Job>, j: nat, row: Job)
    requires Remembers(x, jobs) && x.task.Resting? && j < |jobs| && Fresh(row, jobs[j])
    ensures Remembers(x.(listed := x.listed[j := row]), jobs)
  {
    hide Fresh, AwaitsRuling;
  }

  /** What taking up a job leaves to be done fits the row it leaves. */
  lemma HandledRow(w: World, j: nat, seen: Phase)
    requires Inv(w) && TakesUp(w, SOLE, j)
    ensures j !in AfterTakingUp(w, SOLE, j, seen).listed && j !in AfterTakingUp(w, SOLE, j, seen).failed
    ensures var task := TaskFor(w, SOLE, j, seen);
      var row := if HandleWrite(w, SOLE, j).Some? then Apply(w.jobs[j], HandleWrite(w, SOLE, j).value.change) else w.jobs[j];
      JobOf(task).Some? ==> JobOf(task).value == j && UnderWay(task, row)
  {
    hide RowsSound, RowsBound, ClusterBelongs, Decided, Shown;
  }

  lemma HandlingKeepsMemory(w: World, j: nat, seen: Phase)
    requires Inv(w)
    ensures Remembers(ExecAfter(w, Handle(SOLE, j, seen), SOLE), JobsAfter(w, Handle(SOLE, j, seen)))
  {
    hide RowsSound, RowsBound, ClusterBelongs, Apply, HandleWrite, TaskFor, Fresh, UnderWay, AwaitsRuling, Decided;
    var x := ExecOf(w, SOLE);
    if TakesUp(w, SOLE, j) {
      var y := AfterTakingUp(w, SOLE, j, seen);
      HandledRow(w, j, seen);
      var write := HandleWrite(w, SOLE, j);
      HandleWritesIt(w, SOLE, j);
      var bare := y.(task := Resting);
      Forgetting(x, bare, w.jobs);
      if write.Some? {
        MemoryOfOthers(bare, w.jobs, j, Apply(w.jobs[j], write.value.change));
        TaskNoted(bare, w.jobs[j := Apply(w.jobs[j], write.value.change)], y, j);
      } else {
        TaskNoted(bare, w.jobs, y, j);
      }
    }
  }

  lemma HandleWritesIt(w: World, e: nat, j: nat)
    requires TakesUp(w, e, j)
    ensures HandleWrite(w, e, j).Some? ==> HandleWrite(w, e, j).value.job == j
  {
    hide Decided;
  }

  lemma TaskNoted(bare: Exec, jobs: seq<Job>, y: Exec, j: nat)
    requires Remembers(bare, jobs) && bare == y.(task := Resting) && j < |jobs| && j !in y.listed
    requires JobOf(y.task).Some? ==> JobOf(y.task).value == j && UnderWay(y.task, jobs[j])
    ensures Remembers(y, jobs)
  {
    hide Fresh, AwaitsRuling, UnderWay;
  }

  lemma StepKeepsMemory(w: World, ev: Event)
    requires Inv(w) && Sole(ev)
    ensures Remembers(ExecOf(Step(w, ev), SOLE), JobsAfter(w, ev))
  {
    hide Inv, Remembers, RowsSound, RowsBound, ClusterBelongs, ExecAfter, JobsAfter, WriteOf;
    assert Remembers(ExecOf(w, SOLE), w.jobs) by { InvRemembers(w); }
    if !ByExecutor(ev) {
      OutsideKeepsMemory(w, ev);
    } else {
      SoleMemory(w, ev);
      assert ExecOf(Step(w, ev), SOLE) == ExecAfter(w, ev, SOLE);
    }
  }

  lemma InvRemembers(w: World)
    requires Inv(w)
    ensures Remembers(ExecOf(w, SOLE), w.jobs)
  {
  }

  lemma SoleMemory(w: World, ev: Event)
    requires Inv(w) && ByExecutor(ev) && ev.exec == SOLE
    ensures Remembers(ExecAfter(w, ev, SOLE), JobsAfter(w, ev))
  {
    hide Remembers, RowsSound, RowsBound, ClusterBelongs, WriteOf, TakesUp, AfterTakingUp;
    match ev {
      case List(_) => ListingKeepsMemory(w); NoWrite(w, ev);
      case ListFailed(_) => ListingKeepsMemory(w); NoWrite(w, ev);
      case IssueToken(_, _) => LaunchingKeepsMemory(w, ev); NoWrite(w, ev);
      case CreateJob(_) => LaunchingKeepsMemory(w, ev); NoWrite(w, ev);
      case Reread(_) => LaunchingKeepsMemory(w, ev); NoWrite(w, ev);
      case Expire(_, _) => Forgetting(ExecOf(w, SOLE), ExecAfter(w, ev, SOLE), w.jobs); NoWrite(w, ev);
      case FinishCancel(_) => EndingKeepsMemory(w, ev);
      case Record(_) => EndingKeepsMemory(w, ev);
      case Abandon(_) => Forgetting(ExecOf(w, SOLE), ExecAfter(w, ev, SOLE), w.jobs); NoWrite(w, ev);
      case Crash(_) => Forgetting(ExecOf(w, SOLE), IDLE, w.jobs); NoWrite(w, ev);
      case MarkLaunched(_) => MarkingKeepsMemory(w);
      case Rule(_, j) => RulingKeepsMemory(w, j);
      case Claim(_, exclude) => ClaimingKeepsMemory(w, exclude);
      case Handle(_, j, seen) => HandlingKeepsMemory(w, j, seen);
      case _ =>
    }
  }

  lemma NoWrite(w: World, ev: Event)
    requires ev.List? || ev.ListFailed? || ev.Reread? || ev.IssueToken? || ev.CreateJob? || ev.Expire? || ev.Abandon? || ev.Crash?
    ensures JobsAfter(w, ev) == w.jobs
  {
  }

  // --------------------------------------------------------------- whole runs

  lemma StepKeepsInv(w: World, ev: Event)
    requires Inv(w) && Sole(ev)
    ensures Inv(Step(w, ev))
  {
    hide RowsSound, RowsBound, Remembers, JobBelongs, TornDown, JobsAfter, ClusterAfter, ExecsAfter, TokensAfter, StartsAfter;
    StepKeepsRows(w, ev);
    StepKeepsTornDown(w, ev);
    StepKeepsBound(w, ev);
    StepKeepsMemory(w, ev);
    StepKeepsCluster(w, ev);
  }

  ghost predicate AllSole(evs: seq<Event>) {
    forall i :: 0 <= i < |evs| ==> Sole(evs[i])
  }

  lemma {:induction false} RunKeepsInv(nodes: seq<Node>, quotas: map<nat, Quota>, evs: seq<Event>)
    requires AllSole(evs)
    ensures Inv(Run(Start(nodes, quotas), evs))
  {
    hide Step, Inv, Sole;
    if evs != [] {
      RunKeepsInv(nodes, quotas, evs[..|evs| - 1]);
      StepKeepsInv(Run(Start(nodes, quotas), evs[..|evs| - 1]), evs[|evs| - 1]);
    } else {
      StartInv(nodes, quotas);
    }
  }

  lemma StartInv(nodes: seq<Node>, quotas: map<nat, Quota>)
    ensures Inv(Start(nodes, quotas))
  {
  }

  /** A cancelled job leaves no workload behind: no Job of its attempt, and none on the way. */
  lemma CancelledLeavesNothing(nodes: seq<Node>, quotas: map<nat, Quota>, evs: seq<Event>, j: nat)
    requires AllSole(evs)
    requires var w := Run(Start(nodes, quotas), evs); j < |w.jobs| && w.jobs[j].state.CANCELLED?
    ensures var w := Run(Start(nodes, quotas), evs);
      && (j, w.jobs[j].attempt) !in w.cluster
      && (ExecOf(w, SOLE).task.Launching? ==> ExecOf(w, SOLE).task.launch.job != j)
  {
    hide Run, RowsSound, RowsBound;
    RunKeepsInv(nodes, quotas, evs);
    var w := Run(Start(nodes, quotas), evs);
    assert (j, w.jobs[j].attempt) in w.cluster ==> JobBelongs((j, w.jobs[j].attempt), w.jobs);
  }

  /** A failure that may pass, with budget left, is always still to be ruled on: no retry is lost. */
  lemma NoRetryIsLost(nodes: seq<Node>, quotas: map<nat, Quota>, evs: seq<Event>, j: nat)
    requires AllSole(evs)
    requires var w := Run(Start(nodes, quotas), evs); j < |w.jobs| && w.jobs[j].state.FAILED?
    ensures var row := Run(Start(nodes, quotas), evs).jobs[j];
      AwaitsRuling(row) || !row.transient || row.attempt >= row.maxRetries
  {
    hide Run, RowsSound, ClusterBelongs, Remembers;
    RunKeepsInv(nodes, quotas, evs);
    assert RowBound(Run(Start(nodes, quotas), evs).jobs[j]);
  }

  /** A job waiting in the queue holds no node, and has no workload. */
  lemma QueuedHoldsNothing(nodes: seq<Node>, quotas: map<nat, Quota>, evs: seq<Event>, j: nat)
    requires AllSole(evs)
    requires var w := Run(Start(nodes, quotas), evs); j < |w.jobs| && w.jobs[j].state.QUEUED?
    ensures var w := Run(Start(nodes, quotas), evs);
      w.jobs[j].node.None? && (j, w.jobs[j].attempt) !in w.cluster
  {
    hide Run, RowsSound, Remembers;
    RunKeepsInv(nodes, quotas, evs);
    var w := Run(Start(nodes, quotas), evs);
    assert RowBound(w.jobs[j]);
    assert (j, w.jobs[j].attempt) in w.cluster ==> JobBelongs((j, w.jobs[j].attempt), w.jobs);
  }

  // ------------------------------------------- nobody else to get in the way

  ghost predicate OthersIdle(w: World) {
    forall e :: e != SOLE ==> ExecOf(w, e) == IDLE
  }

  lemma StepKeepsOthersIdle(w: World, ev: Event)
    requires Sole(ev) && OthersIdle(w)
    ensures OthersIdle(Step(w, ev))
  {
    hide JobsAfter, ExecAfter, ClusterAfter, TokensAfter, StartsAfter;
    forall e | e != SOLE ensures ExecOf(Step(w, ev), e) == IDLE {
      assert ExecOf(w, e) == IDLE;
    }
  }

  lemma {:induction false} RunKeepsOthersIdle(nodes: seq<Node>, quotas: map<nat, Quota>, evs: seq<Event>)
    requires AllSole(evs)
    ensures OthersIdle(Run(Start(nodes, quotas), evs))
  {
    hide Step, Sole;
    if evs != [] {
      RunKeepsOthersIdle(nodes, quotas, evs[..|evs| - 1]);
      StepKeepsOthersIdle(Run(Start(nodes, quotas), evs[..|evs| - 1]), evs[|evs| - 1]);
    }
  }

  lemma SoleNamesIts(w: World, ev: Event)
    requires Inv(w) && Sole(ev)
    ensures !N.Misnames(w, ev)
  {
    hide WriteOf, Inv;
    if WriteOf(w, ev).Some? {
      WritesAreApt(w, ev);
    }
  }

  lemma SoleStrandsNothing(w: World, ev: Event, j: nat)
    requires Inv(w) && Sole(ev) && !ev.FinishCancel?
    ensures !P.Strands(w, ev, j)
  {
    hide RowsSound, WriteOf, TornDown;
    if j < |w.jobs| {
      assert RowBound(w.jobs[j]);
      assert (j, w.jobs[j].attempt) in w.cluster ==> JobBelongs((j, w.jobs[j].attempt), w.jobs);
    }
  }

  lemma SoleDoesOneThing(w: World, ev: Event, e: nat, j: nat)
    requires Sole(ev) && OthersIdle(w) && ev.CreateJob?
    ensures !P.Misses(w, ev, e, j)
  {
    assert e != SOLE ==> ExecOf(w, e) == IDLE;
  }

  /** One executor never gets in its own way: it marks each launch at its own attempt and creates no Job of a cancelled row. */
  lemma {:induction false} SoleNeverInterferes(nodes: seq<Node>, quotas: map<nat, Quota>, evs: seq<Event>)
    requires AllSole(evs)
    ensures N.NeverMisnames(Start(nodes, quotas), evs) && P.NeverInterferes(Start(nodes, quotas), evs)
  {
    hide Step, Inv, Sole, OthersIdle, N.Misnames, P.Strands, P.Misses;
    if evs != [] {
      var before, ev := Run(Start(nodes, quotas), evs[..|evs| - 1]), evs[|evs| - 1];
      SoleNeverInterferes(nodes, quotas, evs[..|evs| - 1]);
      RunKeepsInv(nodes, quotas, evs[..|evs| - 1]);
      RunKeepsOthersIdle(nodes, quotas, evs[..|evs| - 1]);
      SoleNamesIts(before, ev);
      forall j | !ev.FinishCancel? ensures !P.Strands(before, ev, j) {
        SoleStrandsNothing(before, ev, j);
      }
      forall e, j | ev.CreateJob? ensures !P.Misses(before, ev, e, j) {
        SoleDoesOneThing(before, ev, e, j);
      }
    }
  }

  /** So with one executor no two launches of a job share a Kubernetes Job name. */
  lemma LaunchesHaveDistinctNames(nodes: seq<Node>, quotas: map<nat, Quota>, evs: seq<Event>, job: nat,
                                  id: string, name: string)
    requires AllSole(evs) && job < |Run(Start(nodes, quotas), evs).jobs|
    ensures !N.NamesRepeat(LaunchesOf(Run(Start(nodes, quotas), evs).starts, job), id, name)
  {
    hide Run, LaunchesOf, N.NamesRepeat, N.NeverMisnames, P.NeverInterferes;
    SoleNeverInterferes(nodes, quotas, evs);
    N.LaunchesHaveDistinctNames(nodes, quotas, evs, job, id, name);
  }
}
