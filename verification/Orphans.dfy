/**
 When a cancelled job leaves its workload behind, however many executors take part: the Job of
 its last attempt is still in the cluster, and no row that is still live points at it.

 A teardown is two steps, a call that deletes a Job and a transaction that ends the cancel. The
 Job deleted is the one recorded with the row as it was read, or failing that the one its
 attempt would have.
 */
module Orphans {
  import opened Prelude
  import opened Placement
  import opened Quota
  import opened JobLifecycle
  import opened Jobs
  import opened JobRuns
  import opened LaunchNames

  predicate Orphan(w: World, j: nat) {
    j < |w.jobs| && w.jobs[j].state.CANCELLED? && (j, w.jobs[j].attempt) in w.cluster
  }

  /** An executor is about to end a cancel whose Job is in the cluster. */
  predicate Missed(w: World, e: nat, j: nat) {
    && ExecOf(w, e).task == Finishing(j) && j < |w.jobs|
    && w.jobs[j].state.CANCELLING? && (j, w.jobs[j].attempt) in w.cluster
  }

  /** An executor is about to create the Job of the attempt a row is at. */
  predicate Creating(w: World, e: nat, j: nat) {
    var task := ExecOf(w, e).task;
    && task.Launching? && task.launch.token.Some? && task.launch.job == j
    && j < |w.jobs| && task.launch.attempt == w.jobs[j].attempt
  }

  /**
   The three ways to leave one, each a guard on the state before the step: a Job is created for a
   launch whose row has meanwhile been cancelled; a cancel finds its row back in the queue with
   the Job of its attempt already there, and ends it at once; or a teardown ends a cancel with
   the Job there, having deleted another or deleted it too early.
   */
  predicate Strands(w: World, ev: Event, j: nat) {
    j < |w.jobs| &&
    match ev
    case CreateJob(e) => Creating(w, e, j) && w.jobs[j].state.CANCELLED?
    case Cancel(k) => k == j && w.jobs[j].state.QUEUED? && (j, w.jobs[j].attempt) in w.cluster
    case FinishCancel(e) => Missed(w, e, j)
    case _ => false
  }

  // ------------------------------------------------------------------- one step

  lemma CancelledBy(row: Job, c: Change)
    requires Settled(row) && !row.state.CANCELLED? && Apply(row, c).state.CANCELLED?
    ensures Apply(row, c).attempt == row.attempt
    ensures (c.Cancelled? && row.state.QUEUED?) || (c.CancellationFinished? && row.state.CANCELLING?)
  {
  }

  lemma CancelledStays(row: Job, c: Change)
    requires row.state.CANCELLED?
    ensures Apply(row, c).state.CANCELLED? && Apply(row, c).attempt == row.attempt
  {
  }

  lemma CancelledThen(row: Job)
    ensures row.state.QUEUED? ==> Apply(row, Cancelled) == row.(state := CANCELLED)
    ensures row.state.CANCELLING? ==> Apply(row, CancellationFinished) == row.(state := CANCELLED)
  {
  }

  /** Only creating a Job puts one in the cluster. */
  lemma AddedToCluster(w: World, ev: Event, j: nat)
    requires j < |w.jobs|
    ensures var k := (j, w.jobs[j].attempt);
      && (ev.CreateJob? && Creating(w, ev.exec, j) ==> k in ClusterAfter(w, ev))
      && (k in ClusterAfter(w, ev) ==> k in w.cluster || (ev.CreateJob? && Creating(w, ev.exec, j)))
  {
  }

  lemma WhatWrites(w: World, ev: Event)
    ensures WriteOf(w, ev).Some? && WriteOf(w, ev).value.change.Cancelled? ==> ev == Cancel(WriteOf(w, ev).value.job)
    ensures WriteOf(w, ev).Some? && WriteOf(w, ev).value.change.CancellationFinished? ==>
      ev.FinishCancel? && ExecOf(w, ev.exec).task == Finishing(WriteOf(w, ev).value.job)
    ensures ev.Cancel? && ev.job < |w.jobs| ==> WriteOf(w, ev) == Some(Write(ev.job, Cancelled))
    ensures ev.FinishCancel? && ExecOf(w, ev.exec).task.Finishing? && ExecOf(w, ev.exec).task.job < |w.jobs| ==>
      WriteOf(w, ev) == Some(Write(ExecOf(w, ev.exec).task.job, CancellationFinished))
    ensures ev.Cancel? || ev.FinishCancel? ==> ClusterAfter(w, ev) == w.cluster
    ensures ev.CreateJob? ==> WriteOf(w, ev).None?
  {
    hide Decided, NextQueued;
  }

  /** Exactly when a step leaves a job's workload behind, whichever executor takes it. */
  lemma OrphanedIff(w: World, ev: Event, j: nat)
    requires RowsSound(w.jobs) && !Orphan(w, j)
    ensures Orphan(Step(w, ev), j) <==> Strands(w, ev, j)
  {
    hide JobsAfter, WriteOf, ClusterAfter, TokensAfter, ExecsAfter, StartsAfter, Apply, Creating;
    WhatWrites(w, ev);
    if j >= |w.jobs| {
      if j < |JobsAfter(w, ev)| { NewRows(w, ev, j); }
    } else {
      RowAfter(w, ev, j);
      AddedToCluster(w, ev, j);
      var row := w.jobs[j];
      assert RowSound(row);
      CancelledThen(row);
      if WriteOf(w, ev).Some? && WriteOf(w, ev).value.job == j {
        if row.state.CANCELLED? {
          CancelledStays(row, WriteOf(w, ev).value.change);
        } else if Apply(row, WriteOf(w, ev).value.change).state.CANCELLED? {
          CancelledBy(row, WriteOf(w, ev).value.change);
        }
      }
    }
  }

  // --------------------------------------------------- what a teardown may rely on

  /** A row read as being cancelled is of the attempt it was then, with the Job it had, and has only got further. */
  predicate Ending(read: Job, row: Job) {
    read.state.CANCELLING? ==>
      read.attempt == row.attempt && read.k8sJob == row.k8sJob && (row.state.CANCELLING? || row.state.CANCELLED?)
  }

  ghost predicate ReadsEnding(x: Exec, jobs: seq<Job>) {
    && (forall j :: j in x.listed ==> j < |jobs| && Ending(x.listed[j], jobs[j]))
    && (x.task.Finishing? ==>
        x.task.job < |jobs| && (jobs[x.task.job].state.CANCELLING? || jobs[x.task.job].state.CANCELLED?))
  }

  ghost predicate TeardownsSound(w: World) {
    RowsSound(w.jobs) && forall e :: ReadsEnding(ExecOf(w, e), w.jobs)
  }

  lemma ChangeKeepsEnding(read: Job, row: Job, c: Change)
    ensures Ending(read, row) ==> Ending(read, Apply(row, c))
    ensures row.state.CANCELLING? || row.state.CANCELLED? ==> Apply(row, c).state.CANCELLING? || Apply(row, c).state.CANCELLED?
  {
  }

  lemma WritesKeepReads(w: World, ev: Event, x: Exec)
    requires ReadsEnding(x, w.jobs)
    ensures ReadsEnding(x, JobsAfter(w, ev))
  {
    hide JobsAfter, WriteOf, Apply, Ending;
    forall j | j in x.listed ensures j < |JobsAfter(w, ev)| && Ending(x.listed[j], JobsAfter(w, ev)[j]) {
      RowAfter(w, ev, j);
      if WriteOf(w, ev).Some? {
        ChangeKeepsEnding(x.listed[j], w.jobs[j], WriteOf(w, ev).value.change);
      }
    }
    if x.task.Finishing? {
      RowAfter(w, ev, x.task.job);
      if WriteOf(w, ev).Some? {
        ChangeKeepsEnding(w.jobs[x.task.job], w.jobs[x.task.job], WriteOf(w, ev).value.change);
      }
    }
  }

  /** What an executor has read after a step is what it had read before, or a row as it now is. */
  lemma StepReads(w: World, ev: Event, e: nat)
    requires ByExecutor(ev) && ev.exec == e
    ensures var x, y := ExecOf(w, e), ExecAfter(w, ev, e);
      && (forall j :: j in y.listed ==>
           (j in x.listed && y.listed[j] == x.listed[j])
           || (j < |w.jobs| && j < |JobsAfter(w, ev)| && y.listed[j] == JobsAfter(w, ev)[j]))
      && (y.task.Finishing? ==> y.task == x.task || (TearsDown(w, ev) && y.task.job == ev.job))
  {
    hide Decided, Shown, NextQueued, Apply, Ends;
  }

  /** An executor takes up a job it read as being cancelled. */
  predicate TearsDown(w: World, ev: Event) {
    ev.Handle? && TakesUp(w, ev.exec, ev.job) && ExecOf(w, ev.exec).listed[ev.job].state.CANCELLING?
  }

  lemma StepKeepsTeardowns(w: World, ev: Event)
    requires TeardownsSound(w)
    ensures TeardownsSound(Step(w, ev))
  {
    hide JobsAfter, ExecAfter, ClusterAfter, TokensAfter, StartsAfter, Ending, RowsSound;
    StepKeepsRows(w, ev);
    forall e ensures ReadsEnding(ExecOf(Step(w, ev), e), JobsAfter(w, ev)) {
      WritesKeepReads(w, ev, ExecOf(w, e));
      if ByExecutor(ev) && ev.exec == e {
        OwnReadsEnd(w, ev, e);
        assert ExecOf(Step(w, ev), e) == ExecAfter(w, ev, e);
      } else {
        assert ExecOf(Step(w, ev), e) == ExecOf(w, e);
      }
    }
  }

  lemma OwnReadsEnd(w: World, ev: Event, e: nat)
    requires ByExecutor(ev) && ev.exec == e
    requires ReadsEnding(ExecOf(w, e), w.jobs) && ReadsEnding(ExecOf(w, e), JobsAfter(w, ev))
    ensures ReadsEnding(ExecAfter(w, ev, e), JobsAfter(w, ev))
  {
    hide JobsAfter, ExecAfter, Ending;
    StepReads(w, ev, e);
    var y := ExecAfter(w, ev, e);
    forall j | j in y.listed ensures j < |JobsAfter(w, ev)| && Ending(y.listed[j], JobsAfter(w, ev)[j]) {
      if j < |JobsAfter(w, ev)| { EndsLikeItself(JobsAfter(w, ev)[j]); }
    }
    if y.task.Finishing? && TearsDown(w, ev) {
      EndingMeans(ExecOf(w, e).listed[ev.job], JobsAfter(w, ev)[ev.job]);
    }
  }

  lemma EndsLikeItself(row: Job)
    ensures Ending(row, row)
  {
  }

  lemma EndingMeans(read: Job, row: Job)
    requires Ending(read, row) && read.state.CANCELLING?
    ensures row.state.CANCELLING? || row.state.CANCELLED?
  {
  }

  // ----------------------------------------------- where the third way comes from

  /**
   The two ways a teardown comes to miss the Job: it deletes another one, that of the attempt
   recorded with the row; or the Job is created between its two halves.
   */
  predicate Misses(w: World, ev: Event, e: nat, j: nat) {
    j < |w.jobs| && w.jobs[j].state.CANCELLING? &&
    match ev
    case Handle(d, k, _) =>
      && d == e && k == j && TearsDown(w, ev)
      && Target(ExecOf(w, e).listed[j]) != w.jobs[j].attempt && (j, w.jobs[j].attempt) in w.cluster
    case CreateJob(d) => ExecOf(w, e).task == Finishing(j) && Creating(w, d, j)
    case _ => false
  }

  lemma TearingDeletes(w: World, ev: Event, j: nat)
    requires TearsDown(w, ev) && j < |w.jobs| && ev.job == j
    ensures (j, w.jobs[j].attempt) in ClusterAfter(w, ev)
      <==> Target(ExecOf(w, ev.exec).listed[j]) != w.jobs[j].attempt && (j, w.jobs[j].attempt) in w.cluster
    ensures ExecAfter(w, ev, ev.exec).task == Finishing(j) && WriteOf(w, ev).None?
  {
  }

  /** Exactly when a step makes a teardown miss the Job. */
  lemma MissedIff(w: World, ev: Event, e: nat, j: nat)
    requires TeardownsSound(w) && !Missed(w, e, j)
    ensures Missed(Step(w, ev), e, j) <==> Misses(w, ev, e, j)
  {
    hide JobsAfter, WriteOf, ExecAfter, ClusterAfter, TokensAfter, StartsAfter, Apply, Ending, TakesUp, Creating, Target;
    var before, after := ExecOf(w, e), ExecOf(Step(w, ev), e);
    assert ReadsEnding(before, w.jobs);
    TaskAfter(w, ev, e, j);
    if j < |w.jobs| {
      RowAfter(w, ev, j);
      AddedToCluster(w, ev, j);
      assert RowSound(w.jobs[j]);
      WhatWrites(w, ev);
      if WriteOf(w, ev).Some? && WriteOf(w, ev).value.job == j {
        WrittenCancelling(w.jobs[j], WriteOf(w, ev).value.change);
      }
      if TearsDown(w, ev) && ev.exec == e && ev.job == j {
        TearingDeletes(w, ev, j);
      }
      if ev.CreateJob? && ev.exec == e { StaysFinishing(w, ev, e); }
    } else if j < |JobsAfter(w, ev)| {
      NewRows(w, ev, j);
    }
  }

  /** A row in the middle of being cancelled stays so, at its attempt, until the cancel ends. */
  lemma WrittenCancelling(row: Job, c: Change)
    requires Settled(row)
    ensures row.state.CANCELLING? ==>
      Apply(row, c).attempt == row.attempt && (Apply(row, c).state.CANCELLING? || Apply(row, c).state.CANCELLED?)
    ensures row.state.CANCELLED? ==> Apply(row, c).state.CANCELLED?
  {
  }

  lemma StaysFinishing(w: World, ev: Event, e: nat)
    requires ev.CreateJob?
    ensures ExecOf(w, e).task.Finishing? <==> ExecOf(Step(w, ev), e).task.Finishing?
  {
  }

  /** What an executor is finishing after a step. */
  lemma TaskAfter(w: World, ev: Event, e: nat, j: nat)
    ensures ExecOf(Step(w, ev), e).task == Finishing(j)
      <==> (TearsDown(w, ev) && ev.exec == e && ev.job == j)
           || (ExecOf(w, e).task == Finishing(j)
               && !(ByExecutor(ev) && ev.exec == e && (ev.FinishCancel? || ev.Abandon? || ev.Crash?)))
    ensures TearsDown(w, ev) && ev.exec == e ==> !ExecOf(w, e).task.Finishing?
  {
    hide JobsAfter, ClusterAfter, TokensAfter, StartsAfter, Decided, Shown, NextQueued, Ends;
  }

  // ------------------------------------------------------------------ whole runs

  lemma {:induction false} RunKeepsTeardowns(nodes: seq<Node>, quotas: map<nat, Quota>, evs: seq<Event>)
    ensures TeardownsSound(Run(Start(nodes, quotas), evs))
  {
    hide Step, TeardownsSound;
    if evs != [] {
      RunKeepsTeardowns(nodes, quotas, evs[..|evs| - 1]);
      StepKeepsTeardowns(Run(Start(nodes, quotas), evs[..|evs| - 1]), evs[|evs| - 1]);
    } else {
      StartTeardowns(nodes, quotas);
    }
  }

  lemma StartTeardowns(nodes: seq<Node>, quotas: map<nat, Quota>)
    ensures TeardownsSound(Start(nodes, quotas))
    ensures forall j :: !Orphan(Start(nodes, quotas), j)
    ensures forall e, j :: !Missed(Start(nodes, quotas), e, j)
  {
  }

  lemma SoundTeardowns(w: World)
    requires TeardownsSound(w)
    ensures RowsSound(w.jobs)
  {
  }

  /** At some point of a run the job's workload was left behind. */
  ghost predicate OrphanedOn(w: World, evs: seq<Event>, j: nat) {
    Orphan(Run(w, evs), j) || (evs != [] && OrphanedOn(w, evs[..|evs| - 1], j))
  }

  /** Some step of a run was one of the three. */
  ghost predicate StrandedOn(w: World, evs: seq<Event>, j: nat) {
    evs != [] && (Strands(Run(w, evs[..|evs| - 1]), evs[|evs| - 1], j) || StrandedOn(w, evs[..|evs| - 1], j))
  }

  /**
   Over every run, with any number of executors and crashes: a job's workload is left behind at
   some point exactly when some step created it for a cancelled row, cancelled the row from the
   queue with it there, or ended the cancel with it there.
   */
  lemma {:induction false} LeftBehindIff(nodes: seq<Node>, quotas: map<nat, Quota>, evs: seq<Event>, j: nat)
    ensures OrphanedOn(Start(nodes, quotas), evs, j) <==> StrandedOn(Start(nodes, quotas), evs, j)
  {
    hide Step, Strands, Orphan, TeardownsSound;
    if evs != [] {
      var before := evs[..|evs| - 1];
      LeftBehindIff(nodes, quotas, before, j);
      RunKeepsTeardowns(nodes, quotas, before);
      SoundTeardowns(Run(Start(nodes, quotas), before));
      if !Orphan(Run(Start(nodes, quotas), before), j) {
        OrphanedIff(Run(Start(nodes, quotas), before), evs[|evs| - 1], j);
      } else {
        assert OrphanedOn(Start(nodes, quotas), before, j);
      }
    } else {
      StartTeardowns(nodes, quotas);
    }
  }

  ghost predicate MissedOn(w: World, evs: seq<Event>, e: nat, j: nat) {
    Missed(Run(w, evs), e, j) || (evs != [] && MissedOn(w, evs[..|evs| - 1], e, j))
  }

  ghost predicate MissesOn(w: World, evs: seq<Event>, e: nat, j: nat) {
    evs != [] && (Misses(Run(w, evs[..|evs| - 1]), evs[|evs| - 1], e, j) || MissesOn(w, evs[..|evs| - 1], e, j))
  }

  /**
   Over every run: an executor is at some point about to end a cancel with the Job still there
   exactly when it deleted the Job of another attempt, or the Job was created between its delete
   and its end of the cancel.
   */
  lemma {:induction false} TeardownMissesIff(nodes: seq<Node>, quotas: map<nat, Quota>, evs: seq<Event>, e: nat, j: nat)
    ensures MissedOn(Start(nodes, quotas), evs, e, j) <==> MissesOn(Start(nodes, quotas), evs, e, j)
  {
    hide Step, Misses, Missed, TeardownsSound;
    if evs != [] {
      var before := evs[..|evs| - 1];
      TeardownMissesIff(nodes, quotas, before, e, j);
      RunKeepsTeardowns(nodes, quotas, before);
      if !Missed(Run(Start(nodes, quotas), before), e, j) {
        MissedIff(Run(Start(nodes, quotas), before), evs[|evs| - 1], e, j);
      } else {
        assert MissedOn(Start(nodes, quotas), before, e, j);
      }
    } else {
      StartTeardowns(nodes, quotas);
    }
  }

  // --------------------------------------------------------------- no interference

  /**
   Another executor gets in the way of a cancel: it creates the Job of a row that is cancelled or
   half torn down, or marks a launch of an earlier attempt; or the row is cancelled from the
   queue with its Job there.
   */
  ghost predicate Interferes(w: World, ev: Event) {
    || Misnames(w, ev)
    || (exists j :: Strands(w, ev, j) && !ev.FinishCancel?)
    || (exists e, j :: Misses(w, ev, e, j) && ev.CreateJob?)
  }

  ghost predicate NeverInterferes(w: World, evs: seq<Event>) {
    evs == [] || (NeverInterferes(w, evs[..|evs| - 1]) && !Interferes(Run(w, evs[..|evs| - 1]), evs[|evs| - 1]))
  }

  ghost predicate Clean(w: World) {
    && TeardownsSound(w) && RowsNamed(w)
    && (forall j :: !Orphan(w, j)) && (forall e, j :: !Missed(w, e, j))
  }

  /** With the right Job recorded, a teardown deletes the right one. */
  lemma DeletesTheRightOne(w: World, ev: Event, e: nat, j: nat)
    requires TeardownsSound(w) && RowsNamed(w) && Misses(w, ev, e, j)
    ensures ev.CreateJob?
  {
    assert ReadsEnding(ExecOf(w, e), w.jobs);
    assert Named(w.jobs[j]);
  }

  lemma StepKeepsClean(w: World, ev: Event)
    requires Clean(w) && !Interferes(w, ev)
    ensures Clean(Step(w, ev))
  {
    hide Step, TeardownsSound, RowsNamed, Orphan, Missed, Misses, Strands, Misnames;
    StepKeepsTeardowns(w, ev);
    SoundTeardowns(w);
    StepKeepsNamedIff(w, ev);
    forall j ensures !Orphan(Step(w, ev), j) {
      OrphanedIff(w, ev, j);
      if Strands(w, ev, j) { EndsMissed(w, ev, j); }
    }
    forall e, j ensures !Missed(Step(w, ev), e, j) {
      MissedIff(w, ev, e, j);
      if Misses(w, ev, e, j) { DeletesTheRightOne(w, ev, e, j); }
    }
  }

  lemma EndsMissed(w: World, ev: Event, j: nat)
    requires Strands(w, ev, j) && ev.FinishCancel?
    ensures Missed(w, ev.exec, j)
  {
  }

  /** Over every run, with any number of executors, on which none gets in the way, no workload is ever left behind. */
  lemma {:induction false} NothingIsLeftBehind(nodes: seq<Node>, quotas: map<nat, Quota>, evs: seq<Event>)
    requires NeverInterferes(Start(nodes, quotas), evs)
    ensures Clean(Run(Start(nodes, quotas), evs))
  {
    hide Step, Interferes, Clean;
    if evs != [] {
      NothingIsLeftBehind(nodes, quotas, evs[..|evs| - 1]);
      StepKeepsClean(Run(Start(nodes, quotas), evs[..|evs| - 1]), evs[|evs| - 1]);
    } else {
      StartTeardowns(nodes, quotas);
      NothingNamed(nodes, quotas);
      CleanFrom(Start(nodes, quotas));
    }
  }

  lemma CleanFrom(w: World)
    requires TeardownsSound(w) && RowsNamed(w)
    requires (forall j :: !Orphan(w, j)) && (forall e, j :: !Missed(w, e, j))
    ensures Clean(w)
  {
  }
}
