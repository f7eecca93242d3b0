/**
 Following a run of two executors step by step on one node of one CPU: what each step makes of
 the jobs, of what the executors are doing, and of the Jobs in the cluster. `Interference` puts
 the steps together.
 */
module Scenes {
  import opened Prelude
  import opened Placement
  import opened Quota
  import opened JobLifecycle
  import opened Jobs
  import T = RunTokens

  const ONE_CPU: Request := Request(1, 0, 0, 0)

  function OneNode(ready: bool): seq<Node> {
    [Node(0, ready, 1, 0, 0, 0, 0, [], Resources(0, 0, 0))]
  }

  /** A job of one CPU submitted at `at`, at its first attempt. */
  function Row(at: int, maxRetries: nat, state: State, node: Option<nat>): Job {
    Job(0, ONE_CPU, HIGH, at, state, 0, maxRetries, node, false, None, None)
  }

  /** A run as far as its step `k`, on a node that is up or not yet. */
  function Upto(ready: bool, evs: seq<Event>, k: nat): World {
    Run(Start(OneNode(ready), map[]), evs[..Min(k, |evs|)])
  }

  lemma Onward(ready: bool, evs: seq<Event>, k: nat)
    requires k < |evs|
    ensures Upto(ready, evs, k + 1) == Step(Upto(ready, evs, k), evs[k])
  {
    hide Step;
    assert evs[..k + 1][..k] == evs[..k];
  }

  lemma Whole(ready: bool, evs: seq<Event>)
    ensures Upto(ready, evs, |evs|) == Run(Start(OneNode(ready), map[]), evs)
  {
    assert evs[..|evs|] == evs;
  }

  // --------------------------------------------------------------------- a scene

  /** All that matters of a state with one node and executors 0 and 1; `issued` is the job of each token. */
  datatype Scene = Scene(ready: bool, jobs: seq<Job>, x0: Exec, x1: Exec, cluster: map<(nat, nat), nat>,
                         issued: seq<nat>, starts: seq<Recorded>)

  ghost predicate IssuedFor(ts: seq<T.Token>, issued: seq<nat>) {
    |ts| == |issued| && forall i :: 0 <= i < |ts| ==> ts[i].job == issued[i]
  }

  ghost predicate At(w: World, s: Scene) {
    && w.nodes == OneNode(s.ready) && w.quotas == map[] && w.jobs == s.jobs
    && ExecOf(w, 0) == s.x0 && ExecOf(w, 1) == s.x1
    && w.cluster == s.cluster && IssuedFor(w.tokens, s.issued) && w.starts == s.starts
  }

  function Opening(ready: bool): Scene {
    Scene(ready, [], IDLE, IDLE, map[], [], [])
  }

  lemma Opens(ready: bool, evs: seq<Event>)
    ensures At(Upto(ready, evs, 0), Opening(ready))
  {
  }

  function Who(s: Scene, e: nat): Exec {
    if e == 0 then s.x0 else s.x1
  }

  function Now(s: Scene, e: nat, x: Exec): Scene {
    if e == 0 then s.(x0 := x) else s.(x1 := x)
  }

  /** An executor's step, from its parts. */
  lemma Acts(w: World, s: Scene, ev: Event, e: nat, t: Scene)
    requires At(w, s) && ByExecutor(ev) && ev.exec == e && e < 2
    requires t == Now(s, e, Who(t, e)).(jobs := t.jobs, cluster := t.cluster, issued := t.issued, starts := t.starts)
    requires JobsAfter(w, ev) == t.jobs && ExecAfter(w, ev, e) == Who(t, e) && ClusterAfter(w, ev) == t.cluster
    requires IssuedFor(TokensAfter(w, ev), t.issued) && StartsAfter(w, ev) == t.starts
    ensures At(Step(w, ev), t)
  {
    hide JobsAfter, ExecAfter, ClusterAfter, TokensAfter, StartsAfter, IssuedFor;
  }

  // ----------------------------------------------------------------- the decision

  /** On a single node of one CPU a job of one CPU fits while nothing else is counted there. */
  lemma OneNodeDecision(w: World, ready: bool, j: nat)
    requires w.nodes == OneNode(ready) && w.quotas == map[] && j < |w.jobs| && w.jobs[j].request == ONE_CPU
    ensures Decided(w, j) == if ready && Load(w, 0, Cpus) <= 0 then Some(0) else None
  {
    hide Load, PlaceJob, CheckQuota, FitsOn;
    var row, view := w.jobs[j], ClusterView(w);
    AffordedExactly(row.request, QuotaOf(w, row.project), UsageWithout(w, row));
    ChoosesTheBest(row.request, view);
    FitsExactly(view[0], row.request);
    assert view[0] in view && forall n :: n in view ==> n == view[0];
  }

  lemma HoldsNothing(row: Job)
    requires row.state.QUEUED? || row.node.None?
    ensures HeldOn(0, Cpus)(row) == 0
  {
  }

  lemma TotalOfOne(jobs: seq<Job>, f: Job -> int)
    requires |jobs| == 1
    ensures Total(jobs, f) == f(jobs[0])
  {
    assert jobs[..0] == [];
    assert Total(jobs[..0], f) == 0;
  }

  lemma TwoCounted(w: World, a: Job, b: Job)
    requires w.jobs == [a, b]
    ensures Load(w, 0, Cpus) == HeldOn(0, Cpus)(a) + HeldOn(0, Cpus)(b)
  {
    TotalOfOne(w.jobs[..1], HeldOn(0, Cpus));
  }

  /** The only job there is fits exactly while the node is up and the job itself is not counted. */
  lemma SoleDecision(w: World, s: Scene)
    requires At(w, s) && |s.jobs| == 1 && s.jobs[0].request == ONE_CPU
    ensures Decided(w, 0) == if s.ready && HeldOn(0, Cpus)(s.jobs[0]) <= 0 then Some(0) else None
  {
    hide Decided, HeldOn;
    OneNodeDecision(w, s.ready, 0);
    TotalOfOne(w.jobs, HeldOn(0, Cpus));
  }

  /** The one claimable job of a table is the one claimed. */
  lemma OnlyQueued(jobs: seq<Job>, exclude: set<nat>, j: nat)
    requires Claimable(jobs, exclude, j) && forall i :: Claimable(jobs, exclude, i) ==> i == j
    ensures NextQueued(jobs, exclude, |jobs|) == Some(j)
  {
    NextQueuedIsFirst(jobs, exclude, |jobs|);
  }

  // ------------------------------------------------------------ what comes from outside

  lemma Submits(w: World, s: Scene, maxRetries: nat, at: int)
    requires At(w, s)
    ensures At(Step(w, Submit(0, ONE_CPU, HIGH, maxRetries, at)), s.(jobs := s.jobs + [Row(at, maxRetries, QUEUED, None)]))
  {
  }

  lemma NodeComesUp(w: World, s: Scene)
    requires At(w, s)
    ensures At(Step(w, Discover(OneNode(true))), s.(ready := true))
  {
  }

  lemma Cancels(w: World, s: Scene, j: nat)
    requires At(w, s) && j < |s.jobs| && (s.jobs[j].state.SCHEDULING? || s.jobs[j].state.STARTING?)
    ensures At(Step(w, Cancel(j)), s.(jobs := s.jobs[j := s.jobs[j].(state := CANCELLING)]))
  {
  }

  lemma CancelsQueued(w: World, s: Scene, j: nat)
    requires At(w, s) && j < |s.jobs| && s.jobs[j].state.QUEUED?
    ensures At(Step(w, Cancel(j)), s.(jobs := s.jobs[j := s.jobs[j].(state := CANCELLED)]))
  {
  }

  // -------------------------------------------------------- what an executor does

  lemma Claims(w: World, s: Scene, e: nat, exclude: set<nat>, j: nat)
    requires At(w, s) && e < 2 && Who(s, e).task.Resting?
    requires NextQueued(s.jobs, exclude, |s.jobs|) == Some(j)
    ensures var row, x := s.jobs[j].(state := SCHEDULING), Who(s, e);
      At(Step(w, Claim(e, exclude)), Now(s, e, x.(listed := x.listed[j := row])).(jobs := s.jobs[j := row]))
  {
    hide NextQueued;
    var row, x := s.jobs[j].(state := SCHEDULING), Who(s, e);
    Acts(w, s, Claim(e, exclude), e, Now(s, e, x.(listed := x.listed[j := row])).(jobs := s.jobs[j := row]));
  }

  /** The only job there is is claimed. */
  lemma ClaimsIt(w: World, s: Scene, e: nat)
    requires At(w, s) && e < 2 && Who(s, e).task.Resting? && |s.jobs| == 1 && s.jobs[0].state.QUEUED?
    ensures var row, x := s.jobs[0].(state := SCHEDULING), Who(s, e);
      At(Step(w, Claim(e, {})), Now(s, e, x.(listed := x.listed[0 := row])).(jobs := [row]))
  {
    OnlyQueued(s.jobs, {}, 0);
    Claims(w, s, e, {}, 0);
    assert s.jobs[0 := s.jobs[0].(state := SCHEDULING)] == [s.jobs[0].(state := SCHEDULING)];
  }

  lemma ListsIt(w: World, s: Scene, e: nat)
    requires At(w, s) && e < 2 && Who(s, e).task.Resting? && |s.jobs| == 1 && Occupying(s.jobs[0].state)
    ensures At(Step(w, List(e)), Now(s, e, Who(s, e).(listed := map[0 := s.jobs[0]])))
  {
    var listed := map j: nat | j < |s.jobs| && Occupying(s.jobs[j].state) :: s.jobs[j];
    assert listed == map[0 := s.jobs[0]];
    Acts(w, s, List(e), e, Now(s, e, Who(s, e).(listed := listed)));
  }

  /** A job is at hand: an executor with nothing else to do has it listed. */
  predicate AtHand(s: Scene, e: nat, j: nat) {
    e < 2 && Who(s, e).task.Resting? && j in Who(s, e).listed && j < |s.jobs|
  }

  /** The executor with a job off its list, and what it goes on to do about it. */
  function Doing(s: Scene, e: nat, j: nat, task: Task): Scene {
    Now(s, e, Who(s, e).(listed := Who(s, e).listed - {j}, task := task))
  }

  predicate ReadUnplaced(s: Scene, e: nat, j: nat) {
    AtHand(s, e, j) && Who(s, e).listed[j].state.SCHEDULING? && Who(s, e).listed[j].node.None?
  }

  lemma Requeues(w: World, s: Scene, e: nat, j: nat)
    requires At(w, s) && ReadUnplaced(s, e, j) && s.jobs[j].state.SCHEDULING? && Decided(w, j) == None
    ensures At(Step(w, Handle(e, j, PodPending)),
               Doing(s, e, j, Resting).(jobs := s.jobs[j := s.jobs[j].(state := QUEUED, node := None)]))
  {
    hide Decided, Shown;
    Acts(w, s, Handle(e, j, PodPending), e,
         Doing(s, e, j, Resting).(jobs := s.jobs[j := s.jobs[j].(state := QUEUED, node := None)]));
  }

  /** Placing asks nothing of the row but that it is there. */
  lemma Places(w: World, s: Scene, e: nat, j: nat)
    requires At(w, s) && ReadUnplaced(s, e, j) && Decided(w, j) == Some(0)
    ensures At(Step(w, Handle(e, j, PodPending)),
               Doing(s, e, j, Rereading(j)).(jobs := s.jobs[j := s.jobs[j].(node := Some(0))]))
  {
    hide Decided, Shown;
    Acts(w, s, Handle(e, j, PodPending), e,
         Doing(s, e, j, Rereading(j)).(jobs := s.jobs[j := s.jobs[j].(node := Some(0))]));
  }

  function Then(s: Scene, e: nat, task: Task): Scene {
    Now(s, e, Who(s, e).(task := task))
  }

  lemma Rereads(w: World, s: Scene, e: nat, j: nat)
    requires At(w, s) && e < 2 && Who(s, e).task == Rereading(j) && j < |s.jobs|
    ensures At(Step(w, Reread(e)), Then(s, e, Launching(Launch(j, s.jobs[j].attempt, None, false))))
  {
    Acts(w, s, Reread(e), e, Then(s, e, Launching(Launch(j, s.jobs[j].attempt, None, false))));
  }

  /** A job read as placed is launched from where it was. */
  lemma Relaunches(w: World, s: Scene, e: nat, j: nat)
    requires At(w, s) && AtHand(s, e, j)
    requires Who(s, e).listed[j].state.SCHEDULING? && Who(s, e).listed[j].node.Some?
    ensures At(Step(w, Handle(e, j, PodPending)),
               Doing(s, e, j, Launching(Launch(j, Who(s, e).listed[j].attempt, None, false))))
  {
    hide Decided, Shown;
    Acts(w, s, Handle(e, j, PodPending), e, Doing(s, e, j, Launching(Launch(j, Who(s, e).listed[j].attempt, None, false))));
  }

  lemma Issues(w: World, s: Scene, e: nat, launch: Launch)
    requires At(w, s) && e < 2 && Who(s, e).task == Launching(launch) && launch.token.None?
    ensures At(Step(w, IssueToken(e, None)),
               Then(s, e, Launching(launch.(token := Some(|s.issued|)))).(issued := s.issued + [launch.job]))
  {
    Acts(w, s, IssueToken(e, None), e,
         Then(s, e, Launching(launch.(token := Some(|s.issued|)))).(issued := s.issued + [launch.job]));
  }

  lemma Creates(w: World, s: Scene, e: nat, launch: Launch)
    requires At(w, s) && e < 2 && Who(s, e).task == Launching(launch) && launch.token.Some?
    ensures var k := (launch.job, launch.attempt);
      At(Step(w, CreateJob(e)),
         Then(s, e, Launching(launch.(created := true)))
         .(cluster := if k in s.cluster then s.cluster else s.cluster[k := launch.token.value]))
  {
    var k := (launch.job, launch.attempt);
    Acts(w, s, CreateJob(e), e,
         Then(s, e, Launching(launch.(created := true)))
         .(cluster := if k in s.cluster then s.cluster else s.cluster[k := launch.token.value]));
  }

  lemma Marks(w: World, s: Scene, e: nat, launch: Launch)
    requires At(w, s) && e < 2 && Who(s, e).task == Launching(launch) && launch.created && launch.job < |s.jobs|
    requires s.jobs[launch.job].state.SCHEDULING?
    ensures var row := s.jobs[launch.job].(state := STARTING, k8sJob := Some(launch.attempt));
      At(Step(w, MarkLaunched(e)),
         Then(s, e, Resting).(jobs := s.jobs[launch.job := row],
                                starts := s.starts + [Recorded(launch.job, row.attempt, launch.attempt)]))
  {
    var row := s.jobs[launch.job].(state := STARTING, k8sJob := Some(launch.attempt));
    Acts(w, s, MarkLaunched(e), e,
         Then(s, e, Resting).(jobs := s.jobs[launch.job := row],
                                starts := s.starts + [Recorded(launch.job, row.attempt, launch.attempt)]));
  }

  /** A launch that has been overtaken is refused, and leaves the row as it is. */
  lemma MarkRefused(w: World, s: Scene, e: nat, launch: Launch)
    requires At(w, s) && e < 2 && Who(s, e).task == Launching(launch) && launch.created && launch.job < |s.jobs|
    requires !s.jobs[launch.job].state.SCHEDULING?
    ensures At(Step(w, MarkLaunched(e)), Then(s, e, Resting))
  {
    assert s.jobs[launch.job := s.jobs[launch.job]] == s.jobs;
    Acts(w, s, MarkLaunched(e), e, Then(s, e, Resting));
  }

  lemma Abandons(w: World, s: Scene, e: nat)
    requires At(w, s) && e < 2
    ensures At(Step(w, Abandon(e)), Then(s, e, Resting))
  {
    Acts(w, s, Abandon(e), e, Then(s, e, Resting));
  }

  lemma Crashes(w: World, s: Scene, e: nat)
    requires At(w, s) && e < 2
    ensures At(Step(w, Crash(e)), Now(s, e, IDLE))
  {
    Acts(w, s, Crash(e), e, Now(s, e, IDLE));
  }

  // ------------------------------------------------------------------- teardowns

  lemma Tears(w: World, s: Scene, e: nat, j: nat)
    requires At(w, s) && AtHand(s, e, j) && Who(s, e).listed[j].state.CANCELLING?
    ensures At(Step(w, Handle(e, j, PodPending)),
               Doing(s, e, j, Finishing(j)).(cluster := s.cluster - {(j, Target(Who(s, e).listed[j]))}))
  {
    hide Decided, Shown;
    Acts(w, s, Handle(e, j, PodPending), e,
         Doing(s, e, j, Finishing(j)).(cluster := s.cluster - {(j, Target(Who(s, e).listed[j]))}));
  }

  lemma Finishes(w: World, s: Scene, e: nat, j: nat)
    requires At(w, s) && e < 2 && Who(s, e).task == Finishing(j) && j < |s.jobs| && s.jobs[j].state.CANCELLING?
    ensures At(Step(w, FinishCancel(e)),
               Then(s, e, Expiring(j)).(jobs := s.jobs[j := s.jobs[j].(state := CANCELLED)]))
  {
    Acts(w, s, FinishCancel(e), e,
         Then(s, e, Expiring(j)).(jobs := s.jobs[j := s.jobs[j].(state := CANCELLED)]));
  }

  // -------------------------------------------------------------------- failures

  /** The Job recorded with the row read is seen to have failed. */
  lemma Sees(w: World, s: Scene, e: nat, j: nat)
    requires At(w, s) && AtHand(s, e, j) && Who(s, e).listed[j].state.STARTING?
    requires Who(s, e).listed[j].k8sJob.Some? && (j, Who(s, e).listed[j].k8sJob.value) in s.cluster
    ensures At(Step(w, Handle(e, j, PodFailed(true))), Doing(s, e, j, Recording(j, PodFailed(true))))
  {
    hide Decided;
    Acts(w, s, Handle(e, j, PodFailed(true)), e, Doing(s, e, j, Recording(j, PodFailed(true))));
  }

  /** The failure is recorded of the row as it now is, whatever attempt that is. */
  lemma RecordsFailure(w: World, s: Scene, e: nat, j: nat)
    requires At(w, s) && e < 2 && Who(s, e).task == Recording(j, PodFailed(true)) && j < |s.jobs|
    requires s.jobs[j].state.STARTING? || s.jobs[j].state.SCHEDULING?
    ensures At(Step(w, Record(e)),
               Then(s, e, Expiring(j)).(jobs := s.jobs[j := s.jobs[j].(state := State.FAILED, transient := true)]))
  {
    Acts(w, s, Record(e), e,
         Then(s, e, Expiring(j)).(jobs := s.jobs[j := s.jobs[j].(state := State.FAILED, transient := true)]));
  }

  lemma ListsFailed(w: World, s: Scene, e: nat)
    requires At(w, s) && e < 2 && Who(s, e).task.Resting? && |s.jobs| == 1 && AwaitsRuling(s.jobs[0])
    ensures At(Step(w, ListFailed(e)), Now(s, e, Who(s, e).(failed := {0})))
  {
    var failed := set j: nat | j < |s.jobs| && AwaitsRuling(s.jobs[j]);
    assert failed == {0};
    Acts(w, s, ListFailed(e), e, Now(s, e, Who(s, e).(failed := failed)));
  }

  lemma Rules(w: World, s: Scene, e: nat, j: nat)
    requires At(w, s) && e < 2 && Who(s, e).task.Resting? && j in Who(s, e).failed && j < |s.jobs|
    ensures At(Step(w, Rule(e, j)),
               Now(s, e, Who(s, e).(failed := Who(s, e).failed - {j})).(jobs := s.jobs[j := Apply(s.jobs[j], Ruled)]))
  {
    hide Apply;
    Acts(w, s, Rule(e, j), e,
         Now(s, e, Who(s, e).(failed := Who(s, e).failed - {j})).(jobs := s.jobs[j := Apply(s.jobs[j], Ruled)]));
  }

  /** A failure that may pass, with budget left, goes back to the queue as the next attempt. */
  lemma RetryGranted(row: Job)
    requires row.state.FAILED? && row.ruling.None? && row.transient && row.attempt < row.maxRetries
    ensures Apply(row, Ruled) == row.(state := QUEUED, attempt := row.attempt + 1, node := None, k8sJob := None)
  {
  }
}
