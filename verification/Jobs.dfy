/**
 The training side of the control plane as one state machine: the job table, the cluster's
 Jobs, run tokens, and executors that read a list, then act on what they read
 (services/executor.js, services/scheduler.js and services/jobs.js).

 A transaction, a read or a call to the cluster is one step. What an executor remembers between
 steps, the rows it listed and what it is in the middle of, is part of the state, so that a
 cancel, a crash or a second executor may come in between.
 */
module Jobs {
  import opened Prelude
  import opened Placement
  import opened Quota
  import opened JobLifecycle
  import T = RunTokens

  // ------------------------------------------------------------- what jobs hold

  function Total(jobs: seq<Job>, f: Job -> int): int {
    if jobs == [] then 0 else Total(jobs[..|jobs| - 1], f) + f(jobs[|jobs| - 1])
  }

  lemma {:induction false} TotalUpdate(jobs: seq<Job>, j: nat, row: Job, f: Job -> int)
    requires j < |jobs|
    ensures Total(jobs[j := row], f) == Total(jobs, f) - f(jobs[j]) + f(row)
  {
    var n := |jobs| - 1;
    if j < n {
      TotalUpdate(jobs[..n], j, row, f);
      assert jobs[j := row][..n] == jobs[..n][j := row];
    } else {
      assert jobs[j := row][..n] == jobs[..n];
    }
  }

  lemma {:induction false} TotalOrder(jobs: seq<Job>, f: Job -> int, g: Job -> int)
    requires forall j :: 0 <= f(j) <= g(j)
    ensures 0 <= Total(jobs, f) <= Total(jobs, g)
  {
    if jobs != [] {
      TotalOrder(jobs[..|jobs| - 1], f, g);
    }
  }

  /** One job among many holds no more than all of them. */
  lemma {:induction false} TotalIncludes(jobs: seq<Job>, j: nat, f: Job -> int, g: Job -> int)
    requires j < |jobs| && forall row :: 0 <= f(row) <= g(row)
    ensures Total(jobs, f) - f(jobs[j]) <= Total(jobs, g) - g(jobs[j])
  {
    var n := |jobs| - 1;
    if j < n {
      TotalIncludes(jobs[..n], j, f, g);
    } else {
      TotalOrder(jobs[..n], f, g);
    }
  }

  /** What a job holds of a node. */
  function HeldOn(node: nat, m: Measure): Job -> int {
    (j: Job) => if Occupying(j.state) && j.node == Some(node) then Wanted(j.request, m) else 0
  }

  /** What counts against a project when a job is admitted. */
  function HeldBy(project: nat, m: Measure): Job -> int {
    (j: Job) => if Occupying(j.state) && j.project == project then Wanted(j.request, m) else 0
  }

  /** What a project has been admitted to: the jobs of it that were given a node. */
  function AdmittedTo(project: nat, m: Measure): Job -> int {
    (j: Job) => if Occupying(j.state) && j.project == project && j.node.Some? then Wanted(j.request, m) else 0
  }

  // ------------------------------------------------------------------- the world

  /** A launch under way: its token once issued, and whether the Job has been asked for. */
  datatype Launch = Launch(job: nat, attempt: nat, token: Option<nat>, created: bool)

  /** What an executor is in the middle of: what it still has to do for the job it took up. */
  datatype Task =
    | Resting
    | Rereading(job: nat)
    | Launching(launch: Launch)
    | Finishing(job: nat)
    | Recording(job: nat, seen: Phase)
    | Expiring(job: nat)

  /** What an executor remembers: rows as it read them, failures it listed, what it is doing. */
  datatype Exec = Exec(listed: map<nat, Job>, failed: set<nat>, task: Task)

  const IDLE := Exec(map[], {}, Resting)

  /** A launch as recorded: at which attempt of the row, and the attempt the Job was named for. */
  datatype Recorded = Recorded(job: nat, attempt: nat, named: nat)

  /**
   `cluster` holds the Kubernetes Jobs by job and attempt, which is what their names are made
   of, each with the token its pod was given. `starts` records each launch, in order.
   */
  datatype World = World(jobs: seq<Job>, nodes: seq<Node>, quotas: map<nat, Quota>, cluster: map<(nat, nat), nat>,
                         tokens: seq<T.Token>, execs: map<nat, Exec>, starts: seq<Recorded>)

  function ExecOf(w: World, e: nat): Exec {
    if e in w.execs then w.execs[e] else IDLE
  }

  function QuotaOf(w: World, project: nat): Quota {
    if project in w.quotas then w.quotas[project] else Quota(0, 0, 0, 0)
  }

  function Load(w: World, node: nat, m: Measure): int {
    Total(w.jobs, HeldOn(node, m))
  }

  /** Each node with what is committed on it (clusterView). */
  function ClusterView(w: World): (v: seq<Node>)
    ensures |v| == |w.nodes|
  {
    seq(|w.nodes|, i requires 0 <= i < |w.nodes| =>
      w.nodes[i].(committed := Resources(Load(w, w.nodes[i].name, Cpus), Load(w, w.nodes[i].name, Bytes),
                                         Load(w, w.nodes[i].name, Gpus))))
  }

  /** What a project holds, its own request left out (projectUsage, as scheduleJob uses it). */
  function UsageWithout(w: World, row: Job): Measure -> int {
    m => Total(w.jobs, HeldBy(row.project, m)) - Wanted(row.request, m)
  }

  /** The two gates: the node a job is given, if it may have one and there is one. */
  function Decided(w: World, j: nat): Option<nat>
    requires j < |w.jobs|
  {
    var row := w.jobs[j];
    if CheckQuota(row.request, QuotaOf(w, row.project), UsageWithout(w, row)).Some? then None
    else
      var placed := PlaceJob(row.request, ClusterView(w));
      if placed.node.None? then None else Some(placed.node.value.name)
  }

  /** A project with no quota set has no limits. */
  lemma NoQuotaNoLimit(w: World, project: nat, r: Request, used: Measure -> int)
    requires project !in w.quotas
    ensures CheckQuota(r, QuotaOf(w, project), used).None?
  {
    AffordedExactly(r, QuotaOf(w, project), used);
  }

  /** What a job counts for: itself, its GPUs, its cores and its memory, from its claim until its run is over. */
  lemma CountsWhileHolding(j: Job, project: nat)
    ensures var holds := j.project == project && j.state in {SCHEDULING, STARTING, RUNNING, CANCELLING};
      && HeldBy(project, Measure.Jobs)(j) == (if holds then 1 else 0)
      && HeldBy(project, Gpus)(j) == (if holds then j.request.gpu else 0)
      && HeldBy(project, Cpus)(j) == (if holds then j.request.cpu else 0)
      && HeldBy(project, Bytes)(j) == (if holds then j.request.memory else 0)
  {
  }

  /** The job whose admission is decided is held against its project by everyone else's share alone. */
  lemma UsageLeavesItOut(w: World, j: nat, m: Measure)
    requires j < |w.jobs| && Occupying(w.jobs[j].state)
    ensures UsageWithout(w, w.jobs[j])(m) == Total(w.jobs[..j] + w.jobs[j + 1..], HeldBy(w.jobs[j].project, m))
  {
    TotalWithout(w.jobs, j, HeldBy(w.jobs[j].project, m));
  }

  lemma {:induction false} TotalWithout(jobs: seq<Job>, j: nat, f: Job -> int)
    requires j < |jobs|
    ensures Total(jobs, f) == Total(jobs[..j] + jobs[j + 1..], f) + f(jobs[j])
  {
    var n := |jobs| - 1;
    var rest := jobs[..j] + jobs[j + 1..];
    if j < n {
      TotalWithout(jobs[..n], j, f);
      assert rest[..n - 1] == jobs[..n][..j] + jobs[..n][j + 1..];
      assert rest[n - 1] == jobs[n];
    } else {
      assert rest == jobs[..n];
    }
  }

  function PriorityRank(p: Priority): nat {
    match p case HIGH => 0 case MEDIUM => 1 case LOW => 2
  }

  /** Priority first, then arrival. */
  predicate Precedes(a: Job, b: Job) {
    PriorityRank(a.priority) < PriorityRank(b.priority)
    || (a.priority == b.priority && a.queuedAt < b.queuedAt)
  }

  predicate Claimable(jobs: seq<Job>, exclude: set<nat>, j: nat) {
    j < |jobs| && jobs[j].state.QUEUED? && j !in exclude
  }

  /** The queued job to claim next among the first `n` (lockNextQueuedJob). */
  function NextQueued(jobs: seq<Job>, exclude: set<nat>, n: nat): (next: Option<nat>)
    requires n <= |jobs|
    ensures next.Some? ==> next.value < n && Claimable(jobs, exclude, next.value)
  {
    if n == 0 then None
    else
      var before := NextQueued(jobs, exclude, n - 1);
      if !Claimable(jobs, exclude, n - 1) then before
      else if before.Some? && !Precedes(jobs[n - 1], jobs[before.value]) then before
      else Some(n - 1)
  }

  lemma {:induction false} NextQueuedIsFirst(jobs: seq<Job>, exclude: set<nat>, n: nat)
    requires n <= |jobs|
    ensures NextQueued(jobs, exclude, n).None? <==> forall j :: 0 <= j < n ==> !Claimable(jobs, exclude, j)
    ensures NextQueued(jobs, exclude, n).Some? ==>
      forall j :: 0 <= j < n && Claimable(jobs, exclude, j) ==> !Precedes(jobs[j], jobs[NextQueued(jobs, exclude, n).value])
  {
    if n > 0 {
      NextQueuedIsFirst(jobs, exclude, n - 1);
    }
  }

  /** A job marked HIGH is never claimed after a MEDIUM or a LOW one, nor a MEDIUM one after a LOW; and among equals the one queued first is claimed first. */
  lemma PriorityThenArrival(jobs: seq<Job>, exclude: set<nat>, j: nat)
    requires Claimable(jobs, exclude, j)
    ensures var next := NextQueued(jobs, exclude, |jobs|);
      && next.Some?
      && (jobs[j].priority == HIGH ==> jobs[next.value].priority == HIGH)
      && (jobs[j].priority == MEDIUM ==> jobs[next.value].priority != LOW)
      && (jobs[j].priority == jobs[next.value].priority ==> jobs[next.value].queuedAt <= jobs[j].queuedAt)
  {
    hide NextQueued;
    NextQueuedIsFirst(jobs, exclude, |jobs|);
  }

  // ------------------------------------------------------------------- the steps

  datatype Event =
    | Submit(project: nat, request: Request, priority: Priority, maxRetries: nat, at: int)
    | Cancel(job: nat)
    | List(exec: nat)
    | Handle(exec: nat, job: nat, seen: Phase)
    | Reread(exec: nat)
    | IssueToken(exec: nat, expiresAt: Option<int>)
    | CreateJob(exec: nat)
    | MarkLaunched(exec: nat)
    | FinishCancel(exec: nat)
    | Record(exec: nat)
    | Expire(exec: nat, until: int)
    | Abandon(exec: nat)
    | ListFailed(exec: nat)
    | Rule(exec: nat, job: nat)
    | Claim(exec: nat, exclude: set<nat>)
    | Crash(exec: nat)
    | Vanish(job: nat, attempt: nat)
    | Discover(nodes: seq<Node>)
    | SetQuota(project: nat, quota: Quota)

  predicate Free(x: Exec) {
    x.task.Resting?
  }

  /** An executor takes up a job it listed. */
  predicate TakesUp(w: World, e: nat, j: nat) {
    Free(ExecOf(w, e)) && j in ExecOf(w, e).listed && j < |w.jobs|
  }

  /** The Job a teardown deletes: the one recorded, or else the one the attempt read would have. */
  function Target(read: Job): nat {
    if read.k8sJob.Some? then read.k8sJob.value else read.attempt
  }

  /** What the cluster answers about the Job of a row: that it is gone exactly when it is. */
  function Shown(w: World, j: nat, named: Option<nat>, seen: Phase): Phase {
    if named.None? || (j, named.value) !in w.cluster then Gone(seen.Gone? && seen.transientLoss)
    else if seen.Gone? then PodPending
    else seen
  }

  /** The row a step writes, and how. */
  datatype Write = Write(job: nat, change: Change)

  /** Taking up a job writes its row only to place it. */
  function HandleWrite(w: World, e: nat, j: nat): Option<Write>
    requires TakesUp(w, e, j)
  {
    var s := ExecOf(w, e).listed[j];
    if s.state.SCHEDULING? && s.node.None? then
      var node := Decided(w, j);
      Some(Write(j, if node.Some? then Bound(node.value) else Requeued))
    else None
  }

  function WriteOf(w: World, ev: Event): (r: Option<Write>)
    ensures r.Some? ==> r.value.job < |w.jobs|
  {
    match ev
    case Cancel(j) => if j < |w.jobs| then Some(Write(j, Cancelled)) else None
    case Handle(e, j, _) => if TakesUp(w, e, j) then HandleWrite(w, e, j) else None
    case MarkLaunched(e) =>
      var task := ExecOf(w, e).task;
      if task.Launching? && task.launch.created && task.launch.job < |w.jobs|
      then Some(Write(task.launch.job, Launched(task.launch.attempt))) else None
    case FinishCancel(e) =>
      var task := ExecOf(w, e).task;
      if task.Finishing? && task.job < |w.jobs| then Some(Write(task.job, CancellationFinished)) else None
    case Record(e) =>
      var task := ExecOf(w, e).task;
      if task.Recording? && task.job < |w.jobs| then Some(Write(task.job, Observed(task.seen))) else None
    case Rule(e, j) =>
      if Free(ExecOf(w, e)) && j in ExecOf(w, e).failed && j < |w.jobs| then Some(Write(j, Ruled)) else None
    case Claim(e, exclude) =>
      var next := NextQueued(w.jobs, exclude, |w.jobs|);
      if Free(ExecOf(w, e)) && next.Some? then Some(Write(next.value, Claimed)) else None
    case _ => None
  }

  function JobsAfter(w: World, ev: Event): seq<Job> {
    match ev
    case Submit(project, request, priority, maxRetries, at) =>
      w.jobs + [Submitted(project, request, priority, maxRetries, at)]
    case _ =>
      var write := WriteOf(w, ev);
      if write.None? then w.jobs
      else w.jobs[write.value.job := Apply(w.jobs[write.value.job], write.value.change)]
  }

  /** Whether a step ended an attempt: its token is then to be put on a short clock. */
  predicate Ends(w: World, ev: Event) {
    var write := WriteOf(w, ev);
    && write.Some? && !Finished(w.jobs[write.value.job].state)
    && Finished(Apply(w.jobs[write.value.job], write.value.change).state)
  }

  function TokensAfter(w: World, ev: Event): seq<T.Token> {
    match ev
    case IssueToken(e, expiresAt) =>
      var task := ExecOf(w, e).task;
      if task.Launching? && task.launch.token.None? then
        T.Issued(w.tokens, task.launch.job, task.launch.attempt, expiresAt)
      else w.tokens
    case Expire(e, until) =>
      var task := ExecOf(w, e).task;
      if task.Expiring? then T.Expired(w.tokens, task.job, until) else w.tokens
    case _ => w.tokens
  }

  function ClusterAfter(w: World, ev: Event): map<(nat, nat), nat> {
    match ev
    case Handle(e, j, _) =>
      if TakesUp(w, e, j) && ExecOf(w, e).listed[j].state.CANCELLING? then
        w.cluster - {(j, Target(ExecOf(w, e).listed[j]))}
      else w.cluster
    case CreateJob(e) =>
      var task := ExecOf(w, e).task;
      if task.Launching? && task.launch.token.Some? && (task.launch.job, task.launch.attempt) !in w.cluster then
        w.cluster[(task.launch.job, task.launch.attempt) := task.launch.token.value]
      else w.cluster
    case Vanish(j, attempt) => w.cluster - {(j, attempt)}
    case _ => w.cluster
  }

  /** What an executor is left to do for a job it took up. */
  function TaskFor(w: World, e: nat, j: nat, seen: Phase): Task
    requires TakesUp(w, e, j)
  {
    var s := ExecOf(w, e).listed[j];
    match s.state
    case CANCELLING => Finishing(j)
    case SCHEDULING =>
      if s.node.Some? then Launching(Launch(j, s.attempt, None, false))
      else if Decided(w, j).Some? then Rereading(j)
      else Resting
    case STARTING => Recording(j, Shown(w, j, s.k8sJob, seen))
    case RUNNING => Recording(j, Shown(w, j, s.k8sJob, seen))
    case _ => Resting
  }

  function AfterTakingUp(w: World, e: nat, j: nat, seen: Phase): Exec
    requires TakesUp(w, e, j)
  {
    ExecOf(w, e).(listed := ExecOf(w, e).listed - {j}, task := TaskFor(w, e, j, seen))
  }

  function ExecAfter(w: World, ev: Event, e: nat): Exec {
    var x := ExecOf(w, e);
    match ev
    case List(_) =>
      if Free(x) then x.(listed := map j: nat | j < |w.jobs| && Occupying(w.jobs[j].state) :: w.jobs[j]) else x
    case Handle(_, j, seen) => if TakesUp(w, e, j) then AfterTakingUp(w, e, j, seen) else x
    case Reread(_) =>
      if x.task.Rereading? && x.task.job < |w.jobs|
      then x.(task := Launching(Launch(x.task.job, w.jobs[x.task.job].attempt, None, false))) else x
    case IssueToken(_, _) =>
      if x.task.Launching? && x.task.launch.token.None? then
        x.(task := Launching(x.task.launch.(token := Some(|w.tokens|))))
      else x
    case CreateJob(_) =>
      if x.task.Launching? && x.task.launch.token.Some? then x.(task := Launching(x.task.launch.(created := true))) else x
    case MarkLaunched(_) => if x.task.Launching? && x.task.launch.created then x.(task := Resting) else x
    case FinishCancel(_) =>
      if x.task.Finishing? then x.(task := if Ends(w, ev) then Expiring(x.task.job) else Resting) else x
    case Record(_) =>
      if x.task.Recording? then x.(task := if Ends(w, ev) then Expiring(x.task.job) else Resting) else x
    case Expire(_, _) => if x.task.Expiring? then x.(task := Resting) else x
    case Abandon(_) => x.(task := Resting)
    case ListFailed(_) =>
      if Free(x) then x.(failed := set j: nat | j < |w.jobs| && AwaitsRuling(w.jobs[j])) else x
    case Rule(_, j) => if Free(x) then x.(failed := x.failed - {j}) else x
    case Claim(_, exclude) =>
      var write := WriteOf(w, ev);
      if write.Some? then
        x.(listed := x.listed[write.value.job := Apply(w.jobs[write.value.job], Claimed)])
      else x
    case Crash(_) => IDLE
    case _ => x
  }

  predicate ByExecutor(ev: Event) {
    !ev.Submit? && !ev.Cancel? && !ev.Vanish? && !ev.Discover? && !ev.SetQuota?
  }

  function ExecsAfter(w: World, ev: Event): map<nat, Exec> {
    if ByExecutor(ev) then w.execs[ev.exec := ExecAfter(w, ev, ev.exec)] else w.execs
  }

  function StartsAfter(w: World, ev: Event): seq<Recorded> {
    var write := WriteOf(w, ev);
    if write.Some? && write.value.change.Launched? && Changed(w.jobs[write.value.job], write.value.change).Some? then
      w.starts + [Recorded(write.value.job, w.jobs[write.value.job].attempt, write.value.change.named)]
    else w.starts
  }

  function Step(w: World, ev: Event): World {
    World(JobsAfter(w, ev),
          if ev.Discover? then ev.nodes else w.nodes,
          if ev.SetQuota? then w.quotas[ev.project := ev.quota] else w.quotas,
          ClusterAfter(w, ev), TokensAfter(w, ev), ExecsAfter(w, ev), StartsAfter(w, ev))
  }

  function Run(w: World, evs: seq<Event>): World {
    if evs == [] then w else Step(Run(w, evs[..|evs| - 1]), evs[|evs| - 1])
  }

  /** Before anything was submitted. */
  function Start(nodes: seq<Node>, quotas: map<nat, Quota>): World {
    World([], nodes, quotas, map[], [], map[], [])
  }
}
