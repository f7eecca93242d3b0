/**
 Runs in which executors come in between one another, and what goes wrong then: promises the
 code's comments make for more than one executor (executor.js:5-8, jobs.js:137-142,
 ADR 0012), each with a run that breaks it. When each of them holds is in `Capacity`, `Orphans`,
 `LaunchNames`, `Rulings` and `PodTokens`.
 */
module Interference {
  import opened Prelude
  import opened Placement
  import opened Quota
  import opened JobLifecycle
  import opened Jobs
  import opened Orphans
  import opened Scenes
  import JR = JobRuns
  import L = LaunchNames
  import P = PodTokens

  /** A run of executors 0 and 1. */
  ghost predicate OfTwo(evs: seq<Event>) {
    forall i :: 0 <= i < |evs| && ByExecutor(evs[i]) ==> evs[i].exec < 2
  }

  // ------------------------------------------------------------ how runs begin

  function On(task: Task): Exec {
    IDLE.(task := task)
  }

  /** Job 0 placed by executor 0, a token issued, and its Job about to be created. */
  function AboutToCreate(maxRetries: nat): Scene {
    Opening(true).(jobs := [Row(0, maxRetries, SCHEDULING, Some(0))], x0 := On(Launching(Launch(0, 0, Some(0), false))),
                   issued := [0])
  }

  /** Placing the only job there is, and reading it again. */
  lemma PlacedAndRead(evs: seq<Event>, k: nat, s: Scene, row: Job, e: nat)
    requires k + 1 < |evs| && evs[k] == Handle(e, 0, PodPending) && evs[k + 1] == Reread(e)
    requires At(Upto(true, evs, k), s) && s.ready && ReadUnplaced(s, e, 0) && s.jobs == [row]
    requires row.request == ONE_CPU && (row.node.None? || row.state.QUEUED?)
    ensures At(Upto(true, evs, k + 2),
               Doing(s, e, 0, Launching(Launch(0, row.attempt, None, false))).(jobs := [row.(node := Some(0))]))
  {
    hide Step, Run, Upto, HeldOn, Decided;
    Onward(true, evs, k);
    Onward(true, evs, k + 1);
    HoldsNothing(row);
    SoleDecision(Upto(true, evs, k), s);
    Places(Upto(true, evs, k), s, e, 0);
    var t := Doing(s, e, 0, Rereading(0)).(jobs := [row.(node := Some(0))]);
    assert s.jobs[0 := s.jobs[0].(node := Some(0))] == t.jobs;
    Rereads(Upto(true, evs, k + 1), t, e, 0);
    assert Doing(s, e, 0, Launching(Launch(0, row.attempt, None, false))).(jobs := [row.(node := Some(0))])
           == Then(t, e, Launching(Launch(0, row.attempt, None, false)));
  }

  /** A run that submits a job, claims it, places it, reads it again and issues a token. */
  predicate Opened(evs: seq<Event>, maxRetries: nat) {
    && |evs| >= 5 && evs[0] == Submit(0, ONE_CPU, HIGH, maxRetries, 0) && evs[1] == Claim(0, {})
    && evs[2] == Handle(0, 0, PodPending) && evs[3] == Reread(0) && evs[4] == IssueToken(0, None)
  }

  lemma Begins(evs: seq<Event>, maxRetries: nat)
    requires Opened(evs, maxRetries)
    ensures At(Upto(true, evs, 5), AboutToCreate(maxRetries))
  {
    hide Step, Run, Upto, HeldOn, Decided, NextQueued;
    Onward(true, evs, 0);
    Onward(true, evs, 1);
    Onward(true, evs, 4);
    Opens(true, evs);
    Submits(Upto(true, evs, 0), Opening(true), maxRetries, 0);
    var queued := Opening(true).(jobs := [Row(0, maxRetries, QUEUED, None)]);
    ClaimsIt(Upto(true, evs, 1), queued, 0);
    var row := Row(0, maxRetries, SCHEDULING, None);
    var claimed := queued.(jobs := [row], x0 := IDLE.(listed := map[0 := row]));
    PlacedAndRead(evs, 2, claimed, row, 0);
    assert map[0 := row] - {0} == map[];
    var placed := claimed.(jobs := [row.(node := Some(0))], x0 := On(Launching(Launch(0, 0, None, false))));
    Issues(Upto(true, evs, 4), placed, 0, Launch(0, 0, None, false));
  }

  /** Job 0 launched by executor 0. */
  function LaunchedOnce(maxRetries: nat): Scene {
    Opening(true).(jobs := [Row(0, maxRetries, STARTING, Some(0)).(k8sJob := Some(0))], cluster := map[(0, 0) := 0],
                   issued := [0], starts := [Recorded(0, 0, 0)])
  }

  lemma BeginsAndLaunches(evs: seq<Event>, maxRetries: nat)
    requires Opened(evs, maxRetries) && |evs| >= 7 && evs[5] == CreateJob(0) && evs[6] == MarkLaunched(0)
    ensures At(Upto(true, evs, 7), LaunchedOnce(maxRetries))
  {
    hide Step, Run, Upto;
    Begins(evs, maxRetries);
    Onward(true, evs, 5);
    Onward(true, evs, 6);
    var s := AboutToCreate(maxRetries);
    Creates(Upto(true, evs, 5), s, 0, Launch(0, 0, Some(0), false));
    var created := s.(cluster := map[(0, 0) := 0], x0 := On(Launching(Launch(0, 0, Some(0), true))));
    Marks(Upto(true, evs, 6), created, 0, Launch(0, 0, Some(0), true));
  }

  /** An executor that read the job as launched sees that Job failed, and records it of the row as it now is. */
  lemma Fails(evs: seq<Event>, k: nat, s: Scene, read: Job, row: Job, e: nat)
    requires e < 2 && k + 2 < |evs|
    requires evs[k] == Handle(e, 0, PodFailed(true)) && evs[k + 1] == Record(e) && evs[k + 2] == Abandon(e)
    requires At(Upto(true, evs, k), s) && Who(s, e) == IDLE.(listed := map[0 := read]) && s.jobs == [row]
    requires read.state.STARTING? && read.k8sJob.Some? && (0, read.k8sJob.value) in s.cluster
    requires row.state.STARTING? || row.state.SCHEDULING?
    ensures At(Upto(true, evs, k + 3), Now(s, e, IDLE).(jobs := [row.(state := State.FAILED, transient := true)]))
  {
    hide Step, Run, Upto, Decided;
    Onward(true, evs, k);
    Onward(true, evs, k + 1);
    Onward(true, evs, k + 2);
    Sees(Upto(true, evs, k), s, e, 0);
    assert map[0 := read] - {0} == map[];
    var seen := Now(s, e, On(Recording(0, PodFailed(true))));
    assert Doing(s, e, 0, Recording(0, PodFailed(true))) == seen;
    RecordsFailure(Upto(true, evs, k + 1), seen, e, 0);
    var failed := Now(s, e, On(Expiring(0))).(jobs := [row.(state := State.FAILED, transient := true)]);
    assert s.jobs[0 := failed.jobs[0]] == failed.jobs;
    Abandons(Upto(true, evs, k + 2), failed, e);
  }

  predicate Failing(evs: seq<Event>, k: nat) {
    && k + 3 < |evs| && evs[k] == List(0) && evs[k + 1] == Handle(0, 0, PodFailed(true))
    && evs[k + 2] == Record(0) && evs[k + 3] == Abandon(0)
  }

  /** Executor 0 sees the launched job fail, and leaves it failed. */
  lemma SeenToFail(evs: seq<Event>, k: nat, s: Scene, row: Job)
    requires Failing(evs, k)
    requires At(Upto(true, evs, k), s) && s.x0 == IDLE && s.jobs == [row]
    requires row.state.STARTING? && row.k8sJob.Some? && (0, row.k8sJob.value) in s.cluster
    ensures At(Upto(true, evs, k + 4), s.(jobs := [row.(state := State.FAILED, transient := true)]))
  {
    hide Step, Run, Upto, At;
    Onward(true, evs, k);
    ListsIt(Upto(true, evs, k), s, 0);
    Fails(evs, k + 1, s.(x0 := IDLE.(listed := map[0 := row])), row, row, 0);
  }

  /** An executor gives the failed job its retry, and claims it. */
  lemma GrantedAndClaimed(evs: seq<Event>, k: nat, s: Scene, row: Job, e: nat)
    requires e < 2 && k + 2 < |evs| && evs[k] == ListFailed(e) && evs[k + 1] == Rule(e, 0) && evs[k + 2] == Claim(e, {})
    requires At(Upto(true, evs, k), s) && Who(s, e) == IDLE && s.jobs == [row]
    requires row.state.FAILED? && row.ruling.None? && row.transient && row.attempt < row.maxRetries
    ensures var again := row.(state := SCHEDULING, attempt := row.attempt + 1, node := None, k8sJob := None);
      At(Upto(true, evs, k + 3), Now(s, e, IDLE.(listed := map[0 := again])).(jobs := [again]))
  {
    hide Step, Run, Upto, Apply;
    Onward(true, evs, k);
    Onward(true, evs, k + 1);
    Onward(true, evs, k + 2);
    ListsFailed(Upto(true, evs, k), s, e);
    var listed := Now(s, e, IDLE.(failed := {0}));
    Rules(Upto(true, evs, k + 1), listed, e, 0);
    RetryGranted(row);
    var queued := row.(state := QUEUED, attempt := row.attempt + 1, node := None, k8sJob := None);
    assert {0} - {0} == {};
    assert s.jobs[0 := queued] == [queued];
    ClaimsIt(Upto(true, evs, k + 2), s.(jobs := [queued]), e);
  }

  /** Executor 0 launches the next attempt as far as creating its Job. */
  lemma TriedAgain(evs: seq<Event>, k: nat, s: Scene, row: Job)
    requires k + 3 < |evs| && evs[k] == Handle(0, 0, PodPending) && evs[k + 1] == Reread(0)
    requires evs[k + 2] == IssueToken(0, None) && evs[k + 3] == CreateJob(0)
    requires At(Upto(true, evs, k), s) && s.ready && s.jobs == [row] && s.x0 == IDLE.(listed := map[0 := row])
    requires row.state.SCHEDULING? && row.node.None? && row.request == ONE_CPU && (0, row.attempt) !in s.cluster
    ensures var launch := Launch(0, row.attempt, Some(|s.issued|), true);
      At(Upto(true, evs, k + 4),
         s.(jobs := [row.(node := Some(0))], x0 := On(Launching(launch)), issued := s.issued + [0],
            cluster := s.cluster[(0, row.attempt) := |s.issued|]))
  {
    hide Step, Run, Upto, Decided;
    Onward(true, evs, k + 2);
    Onward(true, evs, k + 3);
    PlacedAndRead(evs, k, s, row, 0);
    assert map[0 := row] - {0} == map[];
    var launch := Launch(0, row.attempt, None, false);
    var placed := s.(jobs := [row.(node := Some(0))], x0 := On(Launching(launch)));
    Issues(Upto(true, evs, k + 2), placed, 0, launch);
    var issued := launch.(token := Some(|s.issued|));
    Creates(Upto(true, evs, k + 3), placed.(x0 := On(Launching(issued)), issued := s.issued + [0]), 0, issued);
  }

  // ------------------------------------------------------------- booked twice

  /**
   Executor 1 read job 0 while executor 0 had it claimed. Executor 0 puts it back in the queue;
   executor 1 then places it from what it read, and the queue now holds a job with a node, which
   nothing counts.
   */
  const DOUBLE_BOOKING: seq<Event> := [
    Submit(0, ONE_CPU, HIGH, 0, 0),
    Claim(0, {}),
    List(1),
    Handle(0, 0, PodPending),
    Discover(OneNode(true)),
    Handle(1, 0, PodPending),
    Abandon(1),
    Submit(0, ONE_CPU, HIGH, 0, 1),
    Claim(0, {0}),
    Handle(0, 1, PodPending),
    Claim(1, {})]

  const READ: Exec := Exec(map[0 := Row(0, 0, SCHEDULING, None)], {}, Resting)

  /** Both executors have read the claimed job. */
  lemma BothRead(ready: bool, evs: seq<Event>)
    requires |evs| >= 3 && evs[0] == Submit(0, ONE_CPU, HIGH, 0, 0) && evs[1] == Claim(0, {}) && evs[2] == List(1)
    ensures At(Upto(ready, evs, 3), Opening(ready).(jobs := [Row(0, 0, SCHEDULING, None)], x0 := READ, x1 := READ))
  {
    hide Step, Run, Upto;
    Onward(ready, evs, 0);
    Onward(ready, evs, 1);
    Onward(ready, evs, 2);
    Opens(ready, evs);
    Submits(Upto(ready, evs, 0), Opening(ready), 0, 0);
    var queued := Opening(ready).(jobs := [Row(0, 0, QUEUED, None)]);
    ClaimsIt(Upto(ready, evs, 1), queued, 0);
    ListsIt(Upto(ready, evs, 2), queued.(jobs := [Row(0, 0, SCHEDULING, None)], x0 := READ), 1);
  }

  lemma QueuedWithANode()
    ensures At(Upto(false, DOUBLE_BOOKING, 7), Opening(true).(jobs := [Row(0, 0, QUEUED, Some(0))]))
  {
    hide Step, Run, Upto, HeldOn, Decided;
    var evs := DOUBLE_BOOKING;
    BothRead(false, evs);
    Onward(false, evs, 3);
    Onward(false, evs, 4);
    Onward(false, evs, 5);
    Onward(false, evs, 6);
    var s3 := Opening(false).(jobs := [Row(0, 0, SCHEDULING, None)], x0 := READ, x1 := READ);
    SoleDecision(Upto(false, evs, 3), s3);
    Requeues(Upto(false, evs, 3), s3, 0, 0);
    assert READ.listed - {0} == map[];
    var s4 := s3.(jobs := [Row(0, 0, QUEUED, None)], x0 := IDLE);
    NodeComesUp(Upto(false, evs, 4), s4);
    var s5 := s4.(ready := true);
    HoldsNothing(Row(0, 0, QUEUED, None));
    SoleDecision(Upto(false, evs, 5), s5);
    Places(Upto(false, evs, 5), s5, 1, 0);
    var s6 := s5.(jobs := [Row(0, 0, QUEUED, Some(0))], x1 := On(Rereading(0)));
    Abandons(Upto(false, evs, 6), s6, 1);
  }

  lemma BookedTwice()
    ensures Upto(false, DOUBLE_BOOKING, 11).jobs == [Row(0, 0, SCHEDULING, Some(0)), Row(1, 0, SCHEDULING, Some(0))]
    ensures Upto(false, DOUBLE_BOOKING, 11).nodes == OneNode(true)
  {
    hide Step, Run, Upto, HeldOn, Decided, NextQueued;
    var evs := DOUBLE_BOOKING;
    QueuedWithANode();
    Onward(false, evs, 7);
    Onward(false, evs, 8);
    Onward(false, evs, 9);
    Onward(false, evs, 10);
    var a, b := Row(0, 0, QUEUED, Some(0)), Row(1, 0, QUEUED, None);
    var s7 := Opening(true).(jobs := [a]);
    Submits(Upto(false, evs, 7), s7, 0, 1);
    var s8 := s7.(jobs := [a, b]);
    OnlyQueued(s8.jobs, {0}, 1);
    Claims(Upto(false, evs, 8), s8, 0, {0}, 1);
    var c := b.(state := SCHEDULING);
    var s9 := s8.(jobs := [a, c], x0 := IDLE.(listed := map[1 := c]));
    HoldsNothing(a);
    HoldsNothing(c);
    TwoCounted(Upto(false, evs, 9), a, c);
    OneNodeDecision(Upto(false, evs, 9), true, 1);
    Places(Upto(false, evs, 9), s9, 0, 1);
    assert map[1 := c] - {1} == map[];
    var s10 := s9.(jobs := [a, c.(node := Some(0))], x0 := On(Rereading(1)));
    OnlyQueued(s10.jobs, {}, 0);
    Claims(Upto(false, evs, 10), s10, 1, {}, 0);
  }

  /** Two executors promise one CPU twice (see Capacity.NothingIsOverPromisedIff and Capacity.QueueHoldsNothingIff). */
  lemma TwoExecutorsDoubleBook()
    ensures OfTwo(DOUBLE_BOOKING)
    ensures var w := Run(Start(OneNode(false), map[]), DOUBLE_BOOKING);
      |w.nodes| == 1 && Load(w, w.nodes[0].name, Cpus) == 2 && Offered(w.nodes[0]).cpu == 1
  {
    hide Run, Load, Upto;
    BookedTwice();
    Whole(false, DOUBLE_BOOKING);
    TwoCounted(Upto(false, DOUBLE_BOOKING, 11), Row(0, 0, SCHEDULING, Some(0)), Row(1, 0, SCHEDULING, Some(0)));
  }

  // --------------------------------------------------------------- left behind

  /** Cancelled while its Job is about to be created, and half torn down by executor 1. */
  function HalfTornDown(): Scene {
    AboutToCreate(0).(jobs := [Row(0, 0, CANCELLING, Some(0))], x1 := On(Finishing(0)))
  }

  lemma CancelledHalfWay(evs: seq<Event>)
    requires Opened(evs, 0) && |evs| >= 8
    requires evs[5] == Cancel(0) && evs[6] == List(1) && evs[7] == Handle(1, 0, PodPending)
    ensures At(Upto(true, evs, 8), HalfTornDown())
  {
    hide Step, Run, Upto;
    Begins(evs, 0);
    Onward(true, evs, 5);
    Onward(true, evs, 6);
    Onward(true, evs, 7);
    Cancels(Upto(true, evs, 5), AboutToCreate(0), 0);
    var row := Row(0, 0, CANCELLING, Some(0));
    var cancelling := AboutToCreate(0).(jobs := [row]);
    ListsIt(Upto(true, evs, 6), cancelling, 1);
    Tears(Upto(true, evs, 7), cancelling.(x1 := IDLE.(listed := map[0 := row])), 1, 0);
    assert map[0 := row] - {0} == map[];
    var none: map<(nat, nat), nat> := map[];
    assert none - {(0, 0)} == none;
  }

  /**
   Executor 0 is about to create the Job when the user cancels; executor 1 deletes nothing and
   ends the cancel, and then the Job is created.
   */
  const ORPHAN: seq<Event> := [
    Submit(0, ONE_CPU, HIGH, 0, 0),
    Claim(0, {}),
    Handle(0, 0, PodPending),
    Reread(0),
    IssueToken(0, None),
    Cancel(0),
    List(1),
    Handle(1, 0, PodPending),
    FinishCancel(1),
    CreateJob(0)]

  /** A cancelled job can leave a workload running that nothing points at (see Orphans.LeftBehindIff). */
  lemma TwoExecutorsLeaveAnOrphan()
    ensures OfTwo(ORPHAN)
    ensures Orphan(Run(Start(OneNode(true), map[]), ORPHAN), 0)
  {
    hide Step, Run, Upto, At;
    CancelledHalfWay(ORPHAN);
    EndedThenCreated(ORPHAN);
  }

  lemma EndedThenCreated(evs: seq<Event>)
    requires |evs| == 10 && evs[8] == FinishCancel(1) && evs[9] == CreateJob(0) && At(Upto(true, evs, 8), HalfTornDown())
    ensures Orphan(Run(Start(OneNode(true), map[]), evs), 0)
  {
    hide Step, Run, Upto;
    Onward(true, evs, 8);
    Onward(true, evs, 9);
    Whole(true, evs);
    Finishes(Upto(true, evs, 8), HalfTornDown(), 1, 0);
    var s9 := HalfTornDown().(jobs := [Row(0, 0, CANCELLED, Some(0))], x1 := On(Expiring(0)));
    Creates(Upto(true, evs, 9), s9, 0, Launch(0, 0, Some(0), false));
  }

  /** The same with the Job created between the delete and the end of the cancel. */
  const TORN: seq<Event> := [
    Submit(0, ONE_CPU, HIGH, 0, 0),
    Claim(0, {}),
    Handle(0, 0, PodPending),
    Reread(0),
    IssueToken(0, None),
    Cancel(0),
    List(1),
    Handle(1, 0, PodPending),
    CreateJob(0),
    FinishCancel(1)]

  /** A teardown can delete its Job before it is there (see Orphans.TeardownMissesIff). */
  lemma TwoExecutorsTearDownTooEarly()
    ensures OfTwo(TORN)
    ensures Orphan(Run(Start(OneNode(true), map[]), TORN), 0)
  {
    hide Step, Run, Upto, At;
    CancelledHalfWay(TORN);
    CreatedThenEnded(TORN);
  }

  lemma CreatedThenEnded(evs: seq<Event>)
    requires |evs| == 10 && evs[8] == CreateJob(0) && evs[9] == FinishCancel(1) && At(Upto(true, evs, 8), HalfTornDown())
    ensures Orphan(Run(Start(OneNode(true), map[]), evs), 0)
  {
    hide Step, Run, Upto;
    Onward(true, evs, 8);
    Onward(true, evs, 9);
    Whole(true, evs);
    Creates(Upto(true, evs, 8), HalfTornDown(), 0, Launch(0, 0, Some(0), false));
    var s9 := HalfTornDown().(cluster := map[(0, 0) := 0], x0 := On(Launching(Launch(0, 0, Some(0), true))));
    Finishes(Upto(true, evs, 9), s9, 1, 0);
  }

  /**
   Executor 1 read the job before executor 0 placed it and created its Job. Executor 1 then
   finds no room, the job's own CPU being counted, and puts it back in the queue; a cancel ends
   it there at once, and the Job stays.
   */
  const STRAY: seq<Event> := [
    Submit(0, ONE_CPU, HIGH, 0, 0),
    Claim(0, {}),
    List(1),
    Handle(0, 0, PodPending),
    Reread(0),
    IssueToken(0, None),
    CreateJob(0),
    Handle(1, 0, PodPending),
    Cancel(0)]

  lemma StrayCreated()
    ensures At(Upto(true, STRAY, 7),
               Opening(true).(jobs := [Row(0, 0, SCHEDULING, Some(0))], x0 := On(Launching(Launch(0, 0, Some(0), true))),
                              x1 := READ, cluster := map[(0, 0) := 0], issued := [0]))
  {
    hide Step, Run, Upto, HeldOn, Decided;
    var evs, row := STRAY, Row(0, 0, SCHEDULING, None);
    BothRead(true, evs);
    Onward(true, evs, 5);
    Onward(true, evs, 6);
    var s3 := Opening(true).(jobs := [row], x0 := READ, x1 := READ);
    PlacedAndRead(evs, 3, s3, row, 0);
    assert READ.listed - {0} == map[];
    var s5 := s3.(jobs := [row.(node := Some(0))], x0 := On(Launching(Launch(0, 0, None, false))));
    Issues(Upto(true, evs, 5), s5, 0, Launch(0, 0, None, false));
    var s6 := s5.(x0 := On(Launching(Launch(0, 0, Some(0), false))), issued := [0]);
    Creates(Upto(true, evs, 6), s6, 0, Launch(0, 0, Some(0), false));
  }

  /** With two executors a job can be cancelled from the queue with its workload running. */
  lemma TwoExecutorsLeaveAStray()
    ensures OfTwo(STRAY)
    ensures Orphan(Run(Start(OneNode(true), map[]), STRAY), 0)
  {
    hide Step, Run, Upto, Decided;
    var evs, row := STRAY, Row(0, 0, SCHEDULING, Some(0));
    StrayCreated();
    Onward(true, evs, 7);
    Onward(true, evs, 8);
    Whole(true, evs);
    var s7 := Opening(true).(jobs := [row], x0 := On(Launching(Launch(0, 0, Some(0), true))), x1 := READ,
                             cluster := map[(0, 0) := 0], issued := [0]);
    SoleDecision(Upto(true, evs, 7), s7);
    Requeues(Upto(true, evs, 7), s7, 1, 0);
    assert READ.listed - {0} == map[];
    var s8 := s7.(jobs := [Row(0, 0, QUEUED, None)], x1 := IDLE);
    CancelsQueued(Upto(true, evs, 8), s8, 0);
  }

  // ------------------------------------------------------------ under the wrong name

  /**
   Both executors launch attempt 0, and executor 1 stalls before it marks its launch. The attempt
   fails and is retried; executor 0 creates the next attempt's Job, and executor 1 then marks its
   launch of attempt 0. The job is cancelled, and the Job recorded is the one deleted.
   */
  const WRONG_NAME: seq<Event> := BOTH_LAUNCH + RETRIED + MARKED_AND_CANCELLED

  const BOTH_LAUNCH: seq<Event> := [
    Submit(0, ONE_CPU, HIGH, 1, 0),
    Claim(0, {}),
    Handle(0, 0, PodPending),
    Reread(0),
    IssueToken(0, None),
    List(1),
    Handle(1, 0, PodPending),
    IssueToken(1, None),
    CreateJob(0),
    CreateJob(1),
    MarkLaunched(0)]

  const RETRIED: seq<Event> := [
    List(0),
    Handle(0, 0, PodFailed(true)),
    Record(0),
    Abandon(0),
    ListFailed(0),
    Rule(0, 0),
    Claim(0, {}),
    Handle(0, 0, PodPending),
    Reread(0),
    IssueToken(0, None),
    CreateJob(0)]

  const MARKED_AND_CANCELLED: seq<Event> := [
    MarkLaunched(1),
    Cancel(0),
    MarkLaunched(0),
    List(0),
    Handle(0, 0, PodPending),
    FinishCancel(0)]

  const STALLED: Exec := On(Launching(Launch(0, 0, Some(1), true)))

  /** Executor 1 takes up the launch executor 0 has begun, as far as its own token. */
  lemma LaunchTakenUp(evs: seq<Event>, s: Scene, row: Job)
    requires |evs| >= 8 && evs[5] == List(1) && evs[6] == Handle(1, 0, PodPending) && evs[7] == IssueToken(1, None)
    requires At(Upto(true, evs, 5), s) && s.x1 == IDLE && s.jobs == [row] && row.state.SCHEDULING? && row.node.Some?
    ensures At(Upto(true, evs, 8),
               s.(x1 := On(Launching(Launch(0, row.attempt, Some(|s.issued|), false))), issued := s.issued + [0]))
  {
    hide Step, Run, Upto;
    Onward(true, evs, 5);
    Onward(true, evs, 6);
    Onward(true, evs, 7);
    ListsIt(Upto(true, evs, 5), s, 1);
    Relaunches(Upto(true, evs, 6), s.(x1 := IDLE.(listed := map[0 := row])), 1, 0);
    assert map[0 := row] - {0} == map[];
    var launch := Launch(0, row.attempt, None, false);
    Issues(Upto(true, evs, 7), s.(x1 := On(Launching(launch))), 1, launch);
  }

  lemma BothLaunch(evs: seq<Event>)
    requires Opened(evs, 1) && |evs| >= 11 && evs[5] == List(1) && evs[6] == Handle(1, 0, PodPending)
    requires evs[7] == IssueToken(1, None) && evs[8] == CreateJob(0) && evs[9] == CreateJob(1) && evs[10] == MarkLaunched(0)
    ensures At(Upto(true, evs, 11), LaunchedOnce(1).(x1 := STALLED, issued := [0, 0]))
  {
    hide Step, Run, Upto, Opened;
    Begins(evs, 1);
    LaunchTakenUp(evs, AboutToCreate(1), Row(0, 1, SCHEDULING, Some(0)));
    Onward(true, evs, 8);
    Onward(true, evs, 9);
    Onward(true, evs, 10);
    var s8 := AboutToCreate(1).(x1 := On(Launching(Launch(0, 0, Some(1), false))), issued := [0, 0]);
    Creates(Upto(true, evs, 8), s8, 0, Launch(0, 0, Some(0), false));
    var s9 := s8.(x0 := On(Launching(Launch(0, 0, Some(0), true))), cluster := map[(0, 0) := 0]);
    Creates(Upto(true, evs, 9), s9, 1, Launch(0, 0, Some(1), false));
    Marks(Upto(true, evs, 10), s9.(x1 := STALLED), 0, Launch(0, 0, Some(0), true));
  }

  /** The row at its second attempt. */
  function Second(maxRetries: nat, state: State, node: Option<nat>): Job {
    Row(0, maxRetries, state, node).(attempt := 1, transient := true)
  }

  predicate Retrying(evs: seq<Event>, k: nat) {
    && Failing(evs, k) && k + 10 < |evs|
    && evs[k + 4] == ListFailed(0) && evs[k + 5] == Rule(0, 0) && evs[k + 6] == Claim(0, {})
    && evs[k + 7] == Handle(0, 0, PodPending) && evs[k + 8] == Reread(0)
    && evs[k + 9] == IssueToken(0, None) && evs[k + 10] == CreateJob(0)
  }

  /** A job launched once fails and is tried again by executor 0, as far as creating the next Job. */
  lemma FailsAndIsTriedAgain(evs: seq<Event>, k: nat, maxRetries: nat, x1: Exec, issued: seq<nat>)
    requires maxRetries > 0 && Retrying(evs, k)
    requires At(Upto(true, evs, k), LaunchedOnce(maxRetries).(x1 := x1, issued := issued))
    ensures At(Upto(true, evs, k + 11),
               LaunchedOnce(maxRetries).(jobs := [Second(maxRetries, SCHEDULING, Some(0))],
                 x0 := On(Launching(Launch(0, 1, Some(|issued|), true))), x1 := x1, issued := issued + [0],
                 cluster := map[(0, 0) := 0, (0, 1) := |issued|]))
  {
    hide Step, Run, Upto;
    var row := Row(0, maxRetries, STARTING, Some(0)).(k8sJob := Some(0));
    var s := LaunchedOnce(maxRetries).(x1 := x1, issued := issued);
    SeenToFail(evs, k, s, row);
    var failed := row.(state := State.FAILED, transient := true);
    GrantedAndClaimed(evs, k + 4, s.(jobs := [failed]), failed, 0);
    var again := Second(maxRetries, SCHEDULING, None);
    TriedAgain(evs, k + 7, s.(jobs := [again], x0 := IDLE.(listed := map[0 := again])), again);
    assert s.cluster[(0, 1) := |issued|] == map[(0, 0) := 0, (0, 1) := |issued|];
  }

  /** Attempt 1 marked under the name of attempt 0's Job, executor 0 still launching it. */
  function MarkedWrong(): Scene {
    LaunchedOnce(1).(jobs := [Second(1, STARTING, Some(0)).(k8sJob := Some(0))],
                     x0 := On(Launching(Launch(0, 1, Some(2), true))), issued := [0, 0, 0],
                     cluster := map[(0, 0) := 0, (0, 1) := 2], starts := [Recorded(0, 0, 0), Recorded(0, 1, 0)])
  }

  lemma MarksWrong(evs: seq<Event>, s: Scene)
    requires |evs| >= 23 && evs[22] == MarkLaunched(1) && At(Upto(true, evs, 22), s)
    requires s == MarkedWrong().(jobs := [Second(1, SCHEDULING, Some(0))], x1 := STALLED, starts := [Recorded(0, 0, 0)])
    ensures At(Upto(true, evs, 23), MarkedWrong())
  {
    hide Step, Run, Upto;
    Onward(true, evs, 22);
    Marks(Upto(true, evs, 22), s, 1, Launch(0, 0, Some(1), true));
  }

  predicate BothLaunching(evs: seq<Event>) {
    && Opened(evs, 1) && |evs| >= 23 && evs[5] == List(1) && evs[6] == Handle(1, 0, PodPending)
    && evs[7] == IssueToken(1, None) && evs[8] == CreateJob(0) && evs[9] == CreateJob(1) && evs[10] == MarkLaunched(0)
    && Retrying(evs, 11) && evs[22] == MarkLaunched(1)
  }

  lemma WrongNameMarked(evs: seq<Event>)
    requires BothLaunching(evs)
    ensures At(Upto(true, evs, 23), MarkedWrong())
  {
    hide Step, Run, Upto, At, Opened, Retrying;
    BothLaunch(evs);
    FailsAndIsTriedAgain(evs, 11, 1, STALLED, [0, 0]);
    assert [0, 0] + [0] == [0, 0, 0];
    MarksWrong(evs, MarkedWrong().(jobs := [Second(1, SCHEDULING, Some(0))], x1 := STALLED, starts := [Recorded(0, 0, 0)]));
  }

  predicate Tearing(evs: seq<Event>, k: nat) {
    && k + 4 < |evs| && evs[k] == Cancel(0) && evs[k + 1] == MarkLaunched(0) && evs[k + 2] == List(0)
    && evs[k + 3] == Handle(0, 0, PodPending) && evs[k + 4] == FinishCancel(0)
  }

  lemma OfTwoParts(a: seq<Event>, b: seq<Event>, c: seq<Event>)
    requires OfTwo(a) && OfTwo(b) && OfTwo(c)
    ensures OfTwo(a + b + c)
  {
    forall i | 0 <= i < |a + b + c| && ByExecutor((a + b + c)[i]) ensures (a + b + c)[i].exec < 2 {
      if i < |a| { assert ByExecutor(a[i]); }
      else if i < |a + b| { assert ByExecutor(b[i - |a|]); }
      else { assert ByExecutor(c[i - |a + b|]); }
    }
  }

  lemma RetriedInTheMiddle(a: seq<Event>, c: seq<Event>)
    ensures |RETRIED| == 11 && OfTwo(RETRIED) && Retrying(a + RETRIED + c, |a|)
  {
    forall i | 0 <= i < |RETRIED| ensures (a + RETRIED + c)[|a| + i] == RETRIED[i] {
    }
  }

  lemma WrongName()
    ensures OfTwo(WRONG_NAME) && |WRONG_NAME| == 28 && BothLaunching(WRONG_NAME) && Tearing(WRONG_NAME, 23)
  {
    hide Retrying;
    RetriedInTheMiddle(BOTH_LAUNCH, MARKED_AND_CANCELLED);
    OfTwoParts(BOTH_LAUNCH, RETRIED, MARKED_AND_CANCELLED);
    PartsOf(WRONG_NAME, BOTH_LAUNCH, RETRIED, MARKED_AND_CANCELLED);
  }

  lemma PartsOf(evs: seq<Event>, a: seq<Event>, b: seq<Event>, c: seq<Event>)
    requires evs == a + b + c
    ensures forall i :: 0 <= i < |a| ==> evs[i] == a[i]
    ensures forall i {:trigger c[i]} :: 0 <= i < |c| ==> evs[|a| + |b| + i] == c[i]
  {
  }

  /** Two launches of a job can be recorded under one Kubernetes Job name (see LaunchNames.NamesRepeatIff). */
  lemma TwoExecutorsRepeatAName(id: string, name: string)
    ensures OfTwo(WRONG_NAME) && |WRONG_NAME| == 28
    ensures var w := Run(Start(OneNode(true), map[]), WRONG_NAME[..23]);
      L.NamesRepeat(JR.LaunchesOf(w.starts, 0), id, name)
  {
    WrongName();
    RepeatsOnIt(WRONG_NAME, id, name);
  }

  lemma RepeatsOnIt(evs: seq<Event>, id: string, name: string)
    requires BothLaunching(evs)
    ensures L.NamesRepeat(JR.LaunchesOf(Run(Start(OneNode(true), map[]), evs[..23]).starts, 0), id, name)
  {
    hide Step, Run, L.SameName;
    WrongNameMarked(evs);
    var starts := [Recorded(0, 0, 0), Recorded(0, 1, 0)];
    assert Upto(true, evs, 23).starts == starts;
    TwoOfOne(starts);
    L.SameNameIff(starts[0], starts[1], id, name);
  }

  lemma TwoOfOne(starts: seq<Recorded>)
    requires |starts| == 2 && starts[0].job == starts[1].job == 0
    ensures JR.LaunchesOf(starts, 0) == starts
  {
    L.LaunchesGrow([], starts[0], 0);
    L.LaunchesGrow([starts[0]], starts[1], 0);
    assert [] + [starts[0]] == [starts[0]] && [starts[0]] + [starts[1]] == starts;
  }

  /** The job is cancelled, the launch of it refused, and the Job recorded with it deleted. */
  lemma CancelledAndTorn(evs: seq<Event>, k: nat, s: Scene, row: Job, launch: Launch)
    requires Tearing(evs, k)
    requires At(Upto(true, evs, k), s) && s.jobs == [row] && row.state.STARTING?
    requires s.x0 == On(Launching(launch)) && launch.created && launch.job == 0
    ensures At(Upto(true, evs, k + 5),
               s.(jobs := [row.(state := CANCELLED)], x0 := On(Expiring(0)), cluster := s.cluster - {(0, Target(row))}))
  {
    hide Step, Run, Upto;
    Onward(true, evs, k);
    Onward(true, evs, k + 1);
    Cancels(Upto(true, evs, k), s, 0);
    var cancelling := row.(state := CANCELLING);
    var asked := s.(jobs := [cancelling]);
    MarkRefused(Upto(true, evs, k + 1), asked, 0, launch);
    ReadAndTorn(evs, k + 2, asked.(x0 := IDLE), cancelling);
  }

  lemma ReadAndTorn(evs: seq<Event>, k: nat, s: Scene, row: Job)
    requires k + 2 < |evs| && evs[k] == List(0) && evs[k + 1] == Handle(0, 0, PodPending) && evs[k + 2] == FinishCancel(0)
    requires At(Upto(true, evs, k), s) && s.jobs == [row] && row.state.CANCELLING? && s.x0 == IDLE
    ensures At(Upto(true, evs, k + 3),
               s.(jobs := [row.(state := CANCELLED)], x0 := On(Expiring(0)), cluster := s.cluster - {(0, Target(row))}))
  {
    hide Step, Run, Upto;
    Onward(true, evs, k);
    Onward(true, evs, k + 1);
    Onward(true, evs, k + 2);
    ListsIt(Upto(true, evs, k), s, 0);
    Tears(Upto(true, evs, k + 1), s.(x0 := IDLE.(listed := map[0 := row])), 0, 0);
    assert map[0 := row] - {0} == map[];
    Finishes(Upto(true, evs, k + 2), s.(x0 := On(Finishing(0)), cluster := s.cluster - {(0, Target(row))}), 0, 0);
  }

  /** A teardown can delete the Job of an earlier attempt and leave the one that runs. */
  lemma TwoExecutorsDeleteTheWrongJob()
    ensures OfTwo(WRONG_NAME)
    ensures Orphan(Run(Start(OneNode(true), map[]), WRONG_NAME), 0)
  {
    WrongName();
    DeletesOnIt(WRONG_NAME);
  }

  lemma DeletesOnIt(evs: seq<Event>)
    requires BothLaunching(evs) && Tearing(evs, 23) && |evs| == 28
    ensures Orphan(Run(Start(OneNode(true), map[]), evs), 0)
  {
    hide Step, Run, Upto, BothLaunching, Tearing;
    WrongNameMarked(evs);
    Whole(true, evs);
    CancelledAndTorn(evs, 23, MarkedWrong(), MarkedWrong().jobs[0], Launch(0, 1, Some(2), true));
    assert (0, 1) in MarkedWrong().cluster - {(0, 0)};
  }

  /**
   A launch can be marked on a later attempt without any name being recorded twice: executor 1
   takes what it saw of attempt 0 for attempt 1, which executor 0 is still launching, and gives
   the job a third attempt; executor 0 marks its launch of attempt 1 on that.
   */
  const WRONG_ONCE: seq<Event> := READ_AS_LAUNCHED + RETRIED + OVERTAKEN

  const READ_AS_LAUNCHED: seq<Event> := [
    Submit(0, ONE_CPU, HIGH, 2, 0),
    Claim(0, {}),
    Handle(0, 0, PodPending),
    Reread(0),
    IssueToken(0, None),
    CreateJob(0),
    MarkLaunched(0),
    List(1)]

  const OVERTAKEN: seq<Event> := [
    Handle(1, 0, PodFailed(true)),
    Record(1),
    Abandon(1),
    ListFailed(1),
    Rule(1, 0),
    Claim(1, {}),
    MarkLaunched(0)]

  /** Executor 0 still launching attempt 1, which executor 1 has had failed. */
  function TakenForTheNext(): Scene {
    LaunchedOnce(2).(jobs := [Second(2, State.FAILED, Some(0))], x0 := On(Launching(Launch(0, 1, Some(1), true))),
                     issued := [0, 0], cluster := map[(0, 0) := 0, (0, 1) := 1])
  }

  predicate Overtaking(evs: seq<Event>) {
    && Opened(evs, 2) && |evs| >= 26 && evs[5] == CreateJob(0) && evs[6] == MarkLaunched(0) && evs[7] == List(1)
    && Retrying(evs, 8)
    && evs[19] == Handle(1, 0, PodFailed(true)) && evs[20] == Record(1) && evs[21] == Abandon(1)
    && evs[22] == ListFailed(1) && evs[23] == Rule(1, 0) && evs[24] == Claim(1, {}) && evs[25] == MarkLaunched(0)
  }

  lemma WrongOnce()
    ensures OfTwo(WRONG_ONCE) && |WRONG_ONCE| == 26 && Overtaking(WRONG_ONCE)
  {
    hide Retrying;
    RetriedInTheMiddle(READ_AS_LAUNCHED, OVERTAKEN);
    OfTwoParts(READ_AS_LAUNCHED, RETRIED, OVERTAKEN);
    PartsOf(WRONG_ONCE, READ_AS_LAUNCHED, RETRIED, OVERTAKEN);
  }

  lemma TakesForTheNext(evs: seq<Event>)
    requires Overtaking(evs)
    ensures At(Upto(true, evs, 22), TakenForTheNext())
  {
    hide Step, Run, Upto, Opened, Retrying, At;
    var row := Row(0, 2, STARTING, Some(0)).(k8sJob := Some(0));
    BeginsAndLaunches(evs, 2);
    ReadAndRetried(evs, IDLE.(listed := map[0 := row]), row);
    FailsTheNext(evs, IDLE.(listed := map[0 := row]), row);
  }

  lemma ReadAndRetried(evs: seq<Event>, x1: Exec, row: Job)
    requires |evs| >= 19 && evs[7] == List(1) && Retrying(evs, 8) && At(Upto(true, evs, 7), LaunchedOnce(2))
    requires x1 == IDLE.(listed := map[0 := row]) && row == Row(0, 2, STARTING, Some(0)).(k8sJob := Some(0))
    ensures At(Upto(true, evs, 19), TakenForTheNext().(jobs := [Second(2, SCHEDULING, Some(0))], x1 := x1))
  {
    hide Step, Run, Upto, Retrying, At;
    ReadAsLaunched(evs, 2);
    FailsAndIsTriedAgain(evs, 8, 2, x1, [0]);
    assert [0] + [0] == [0, 0];
  }

  lemma FailsTheNext(evs: seq<Event>, x1: Exec, row: Job)
    requires |evs| >= 22 && evs[19] == Handle(1, 0, PodFailed(true)) && evs[20] == Record(1) && evs[21] == Abandon(1)
    requires x1 == IDLE.(listed := map[0 := row]) && row == Row(0, 2, STARTING, Some(0)).(k8sJob := Some(0))
    requires At(Upto(true, evs, 19), TakenForTheNext().(jobs := [Second(2, SCHEDULING, Some(0))], x1 := x1))
    ensures At(Upto(true, evs, 22), TakenForTheNext())
  {
    hide Step, Run, Upto, At;
    var next := Second(2, SCHEDULING, Some(0));
    Fails(evs, 19, TakenForTheNext().(jobs := [next], x1 := x1), row, next, 1);
  }

  lemma ReadAsLaunched(evs: seq<Event>, maxRetries: nat)
    requires |evs| >= 8 && evs[7] == List(1) && At(Upto(true, evs, 7), LaunchedOnce(maxRetries))
    ensures var read := IDLE.(listed := map[0 := Row(0, maxRetries, STARTING, Some(0)).(k8sJob := Some(0))]);
      At(Upto(true, evs, 8), LaunchedOnce(maxRetries).(x1 := read, issued := [0]))
  {
    hide Step, Run, Upto;
    Onward(true, evs, 7);
    ListsIt(Upto(true, evs, 7), LaunchedOnce(maxRetries), 1);
  }

  lemma MarkedOnTheThird(evs: seq<Event>)
    requires At(Upto(true, evs, 22), TakenForTheNext()) && |evs| >= 26
    requires evs[22] == ListFailed(1) && evs[23] == Rule(1, 0) && evs[24] == Claim(1, {}) && evs[25] == MarkLaunched(0)
    ensures Upto(true, evs, 26).starts == [Recorded(0, 0, 0), Recorded(0, 2, 1)]
  {
    hide Step, Run, Upto, At;
    var failed := Second(2, State.FAILED, Some(0));
    GrantedAndClaimed(evs, 22, TakenForTheNext(), failed, 1);
    var third := failed.(state := SCHEDULING, attempt := 2, node := None);
    MarksTheThird(evs, TakenForTheNext().(jobs := [third], x1 := IDLE.(listed := map[0 := third])), third);
  }

  lemma MarksTheThird(evs: seq<Event>, s: Scene, row: Job)
    requires |evs| >= 26 && evs[25] == MarkLaunched(0) && At(Upto(true, evs, 25), s)
    requires s.jobs == [row] && row.state.SCHEDULING? && s.x0.task == Launching(Launch(0, 1, Some(1), true))
    ensures Upto(true, evs, 26).starts == s.starts + [Recorded(0, row.attempt, 1)]
  {
    hide Step, Run, Upto;
    Onward(true, evs, 25);
    Marks(Upto(true, evs, 25), s, 0, Launch(0, 1, Some(1), true));
  }

  /** Marking a launch on a later attempt does not by itself make two launches share a name. */
  lemma MisnamedWithoutRepeating(id: string, name: string)
    ensures OfTwo(WRONG_ONCE)
    ensures var starts := Run(Start(OneNode(true), map[]), WRONG_ONCE).starts;
      !L.NamesRepeat(JR.LaunchesOf(starts, 0), id, name) && !L.NeverMisnames(Start(OneNode(true), map[]), WRONG_ONCE)
  {
    hide Run, Upto;
    WrongOnce();
    TakesForTheNext(WRONG_ONCE);
    MarkedOnTheThird(WRONG_ONCE);
    Whole(true, WRONG_ONCE);
    MisnamedApart(WRONG_ONCE, id, name);
  }

  lemma MisnamedApart(evs: seq<Event>, id: string, name: string)
    requires Run(Start(OneNode(true), map[]), evs).starts == [Recorded(0, 0, 0), Recorded(0, 2, 1)]
    ensures !L.NamesRepeat(JR.LaunchesOf([Recorded(0, 0, 0), Recorded(0, 2, 1)], 0), id, name)
    ensures !L.NeverMisnames(Start(OneNode(true), map[]), evs)
  {
    hide Run, L.SameName, L.NeverMisnames;
    var starts := [Recorded(0, 0, 0), Recorded(0, 2, 1)];
    TwoOfOne(starts);
    L.SameNameIff(starts[0], starts[1], id, name);
    L.NamesAreOwnIff(OneNode(true), map[], evs);
    assert starts[1].named != starts[1].attempt;
  }

  // --------------------------------------------------------- a retry never ruled on

  /** A refusal, once recorded, stands for good: nothing that follows gives the job another attempt. */
  lemma {:induction false} RuledForGood(row: Job, cs: seq<Change>)
    requires row.ruling.Some?
    ensures ApplyAll(row, cs).ruling.Some? && ApplyAll(row, cs).attempt == row.attempt
  {
    hide Apply;
    if cs != [] {
      RuledForGood(row, cs[..|cs| - 1]);
      RulingStands(ApplyAll(row, cs[..|cs| - 1]), cs[|cs| - 1]);
    }
  }

  lemma RulingStands(row: Job, c: Change)
    requires row.ruling.Some?
    ensures Apply(row, c).ruling.Some? && Apply(row, c).attempt == row.attempt
  {
  }

  /**
   Ruling on a job that could still be retried costs it every retry it had left, exactly when it
   is no longer FAILED by the time its row is locked.
   */
  lemma StaleRulingForfeitsRetries(row: Job)
    requires row.ruling.None? && row.attempt < row.maxRetries && (row.state.FAILED? ==> row.transient)
    ensures (forall cs :: ApplyAll(Apply(row, Ruled), cs).attempt == row.attempt) <==> !row.state.FAILED?
  {
    if row.state.FAILED? {
      assert ApplyAll(Apply(row, Ruled), []).attempt == row.attempt + 1;
    } else {
      forall cs ensures ApplyAll(Apply(row, Ruled), cs).attempt == row.attempt {
        RuledForGood(Apply(row, Ruled), cs);
      }
    }
  }

  /** Executors 0 and 1 both list the failure; 0 grants the retry, then 1 rules on the requeued job. */
  const RULED_TWICE: seq<Event> := [
    Submit(0, ONE_CPU, HIGH, 2, 0),
    Claim(0, {}),
    Handle(0, 0, PodPending),
    Reread(0),
    IssueToken(0, None),
    CreateJob(0),
    MarkLaunched(0),
    List(0),
    Handle(0, 0, PodFailed(true)),
    Record(0),
    Abandon(0),
    ListFailed(0),
    ListFailed(1),
    Rule(0, 0),
    Rule(1, 0)]

  /** Executor 0 grants the retry, then executor 1 rules on what it listed as failed. */
  lemma BothRule(evs: seq<Event>, k: nat, s: Scene, row: Job)
    requires k + 3 < |evs| && evs[k] == ListFailed(0) && evs[k + 1] == ListFailed(1)
    requires evs[k + 2] == Rule(0, 0) && evs[k + 3] == Rule(1, 0)
    requires At(Upto(true, evs, k), s) && s.jobs == [row] && s.x0 == IDLE && s.x1 == IDLE
    requires row.state.FAILED? && row.ruling.None? && row.transient && row.attempt < row.maxRetries
    ensures Upto(true, evs, k + 4).jobs
         == [row.(state := QUEUED, attempt := row.attempt + 1, node := None, k8sJob := None, ruling := Some(NOT_APPLICABLE))]
  {
    hide Step, Run, Upto, Apply;
    Onward(true, evs, k);
    Onward(true, evs, k + 1);
    Onward(true, evs, k + 2);
    Onward(true, evs, k + 3);
    ListsFailed(Upto(true, evs, k), s, 0);
    var one := s.(x0 := IDLE.(failed := {0}));
    ListsFailed(Upto(true, evs, k + 1), one, 1);
    var both := one.(x1 := IDLE.(failed := {0}));
    Rules(Upto(true, evs, k + 2), both, 0, 0);
    RetryGranted(row);
    assert {0} - {0} == {};
    var queued := Apply(row, Ruled);
    Rules(Upto(true, evs, k + 3), both.(jobs := [queued], x0 := IDLE), 1, 0);
    Forfeits(queued);
  }

  lemma RetryForfeited(evs: seq<Event>)
    requires Opened(evs, 2) && |evs| >= 15 && evs[5] == CreateJob(0) && evs[6] == MarkLaunched(0) && Failing(evs, 7)
    requires evs[11] == ListFailed(0) && evs[12] == ListFailed(1) && evs[13] == Rule(0, 0) && evs[14] == Rule(1, 0)
    ensures Upto(true, evs, 15).jobs == [Second(2, QUEUED, None).(ruling := Some(NOT_APPLICABLE))]
  {
    hide Step, Run, Upto, At, Opened, Failing;
    var row := Row(0, 2, STARTING, Some(0)).(k8sJob := Some(0));
    BeginsAndLaunches(evs, 2);
    SeenToFail(evs, 7, LaunchedOnce(2), row);
    var failed := row.(state := State.FAILED, transient := true);
    BothRule(evs, 11, LaunchedOnce(2).(jobs := [failed]), failed);
  }

  /** Two executors can leave a requeued job with retries left and a refusal recorded against it. */
  lemma TwoExecutorsForfeitARetry()
    ensures OfTwo(RULED_TWICE)
    ensures var w := Run(Start(OneNode(true), map[]), RULED_TWICE);
      |w.jobs| == 1 && w.jobs[0].state.QUEUED? && w.jobs[0].attempt < w.jobs[0].maxRetries
      && w.jobs[0].ruling == Some(NOT_APPLICABLE)
  {
    hide Step, Run, Upto;
    RetryForfeited(RULED_TWICE);
    Whole(true, RULED_TWICE);
  }

  lemma Forfeits(row: Job)
    requires row.state.QUEUED? && row.ruling.None?
    ensures Apply(row, Ruled) == row.(ruling := Some(NOT_APPLICABLE))
  {
  }

  // ---------------------------------------------------- a pod that cannot report

  /** A crash after the Job is created and before it is recorded; the next pass launches again. */
  const INTERRUPTED: seq<Event> := [
    Submit(0, ONE_CPU, HIGH, 0, 0),
    Claim(0, {}),
    Handle(0, 0, PodPending),
    Reread(0),
    IssueToken(0, None),
    CreateJob(0),
    Crash(0),
    List(0),
    Handle(0, 0, PodPending),
    IssueToken(0, None),
    CreateJob(0),
    MarkLaunched(0)]

  lemma LaunchedAgain()
    ensures At(Upto(true, INTERRUPTED, 12), LaunchedOnce(0).(issued := [0, 0]))
  {
    hide Step, Run, Upto;
    var evs, row := INTERRUPTED, Row(0, 0, SCHEDULING, Some(0));
    Begins(evs, 0);
    Onward(true, evs, 5);
    Onward(true, evs, 6);
    Onward(true, evs, 7);
    Onward(true, evs, 8);
    Onward(true, evs, 9);
    Onward(true, evs, 10);
    Onward(true, evs, 11);
    Creates(Upto(true, evs, 5), AboutToCreate(0), 0, Launch(0, 0, Some(0), false));
    var s6 := AboutToCreate(0).(cluster := map[(0, 0) := 0], x0 := On(Launching(Launch(0, 0, Some(0), true))));
    Crashes(Upto(true, evs, 6), s6, 0);
    var s7 := s6.(x0 := IDLE);
    ListsIt(Upto(true, evs, 7), s7, 0);
    Relaunches(Upto(true, evs, 8), s7.(x0 := IDLE.(listed := map[0 := row])), 0, 0);
    assert map[0 := row] - {0} == map[];
    var s9 := s7.(x0 := On(Launching(Launch(0, 0, None, false))));
    Issues(Upto(true, evs, 9), s9, 0, Launch(0, 0, None, false));
    var s10 := s9.(x0 := On(Launching(Launch(0, 0, Some(1), false))), issued := [0, 0]);
    Creates(Upto(true, evs, 10), s10, 0, Launch(0, 0, Some(1), false));
    Marks(Upto(true, evs, 11), s10.(x0 := On(Launching(Launch(0, 0, Some(1), true)))), 0, Launch(0, 0, Some(1), true));
  }

  /** One executor, one crash: the job is STARTING and its pod holds a revoked token (see PodTokens.PodIsCutOffIff). */
  lemma CrashCutsThePodOff()
    ensures var w := Run(Start(OneNode(true), map[]), INTERRUPTED);
      && |w.jobs| == 1 && w.jobs[0].state.STARTING? && (0, 0) in w.cluster
      && w.cluster[(0, 0)] < |w.tokens| && w.tokens[w.cluster[(0, 0)]].revoked
  {
    hide Step, Run, Upto;
    LaunchedAgain();
    Whole(true, INTERRUPTED);
    P.PodIsCutOffIff(OneNode(true), map[], INTERRUPTED, (0, 0));
    var w := Run(Start(OneNode(true), map[]), INTERRUPTED);
    assert w.tokens[1].job == w.tokens[0].job;
  }
}
