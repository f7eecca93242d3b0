/**
 A training job's row and the moves it may make (job-state.js, retry-policy.js, and the
 transactions of services/jobs.js over repos/jobs.js). Each function here is one
 transaction on one row: the new row, or nothing when the transaction is refused and
 rolled back.
 */
module JobLifecycle {
  import opened Prelude
  import opened Placement

  datatype State = CREATED | QUEUED | SCHEDULING | STARTING | RUNNING | SUCCEEDED | FAILED | RETRYING | CANCELLING | CANCELLED

  function Next(s: State): set<State> {
    match s
    case CREATED => {QUEUED, CANCELLED}
    case QUEUED => {SCHEDULING, CANCELLING, State.FAILED}
    case SCHEDULING => {STARTING, QUEUED, CANCELLING, State.FAILED}
    case STARTING => {RUNNING, State.FAILED, CANCELLING}
    case RUNNING => {SUCCEEDED, State.FAILED, CANCELLING}
    case FAILED => {RETRYING}
    case RETRYING => {QUEUED, State.FAILED}
    case CANCELLING => {CANCELLED}
    case SUCCEEDED => {}
    case CANCELLED => {}
  }

  /** The states in which a job holds capacity on its node. */
  predicate Occupying(s: State) {
    s.SCHEDULING? || s.STARTING? || s.RUNNING? || s.CANCELLING?
  }

  predicate Finished(s: State) {
    s.SUCCEEDED? || s.FAILED? || s.CANCELLED?
  }

  /** States before the job's workload has been recorded as launched. */
  predicate Unlaunched(s: State) {
    s.CREATED? || s.QUEUED? || s.SCHEDULING?
  }

  datatype Priority = HIGH | MEDIUM | LOW

  datatype Ruling = RETRY | PERMANENT | EXHAUSTED | NOT_APPLICABLE

  /**
   `transient` is whether the recorded failure is of a kind another attempt can change. `k8sJob` is
   the recorded Kubernetes Job, by the attempt its name was made for.
   */
  datatype Job = Job(project: nat, request: Request, priority: Priority, queuedAt: int, state: State,
                     attempt: nat, maxRetries: nat, node: Option<nat>, transient: bool, ruling: Option<Ruling>,
                     k8sJob: Option<nat>)

  function Moved(j: Job, to: State): Option<Job> {
    if to in Next(j.state) then Some(j.(state := to)) else None
  }

  /** Created and queued in one transaction. */
  function Submitted(project: nat, request: Request, priority: Priority, maxRetries: nat, at: int): Job {
    Job(project, request, priority, at, QUEUED, 0, maxRetries, None, false, None, None)
  }

  function CancelRow(j: Job): Option<Job> {
    match j.state
    case CANCELLED => None
    case CANCELLING => None
    case SUCCEEDED => None
    case CREATED => Moved(j, CANCELLED)
    case SCHEDULING => Moved(j, CANCELLING)
    case STARTING => Moved(j, CANCELLING)
    case RUNNING => Moved(j, CANCELLING)
    case _ =>
      var cancelling := Moved(j, CANCELLING);
      if cancelling.None? then None else Moved(cancelling.value, CANCELLED)
  }

  function ClaimRow(j: Job): Option<Job> {
    Moved(j, SCHEDULING)
  }

  /** Back to the queue, the binding cleared first. */
  function RequeueRow(j: Job): Option<Job> {
    Moved(j.(node := None), QUEUED)
  }

  function BindRow(j: Job, node: nat): Job {
    j.(node := Some(node))
  }

  /** The name of the Job created, and the move, in one transaction. */
  function LaunchedRow(j: Job, named: nat): Option<Job> {
    Moved(j.(k8sJob := Some(named)), STARTING)
  }

  function FinishCancellationRow(j: Job): Option<Job> {
    Moved(j, CANCELLED)
  }

  /** What the cluster shows of a workload. */
  datatype Phase = PodPending | PodRunning | PodSucceeded | PodFailed(transientFailure: bool) | Gone(transientLoss: bool)

  /** The observation applied to the row; unchanged where it implies nothing. */
  function ObserveRow(j: Job, seen: Phase): Option<Job> {
    if j.state.CANCELLING? || Finished(j.state) then Some(j)
    else
      match seen
      case PodPending => Some(j)
      case PodRunning => if j.state.RUNNING? then Some(j) else Moved(j, RUNNING)
      case PodSucceeded =>
        var running := if j.state.STARTING? then j.(state := RUNNING) else j;
        Moved(running, SUCCEEDED)
      case PodFailed(transient) => Moved(j.(transient := transient), State.FAILED)
      case Gone(transient) => Moved(j.(transient := transient), State.FAILED)
  }

  function DecideRetry(j: Job): Ruling {
    if !j.state.FAILED? then NOT_APPLICABLE
    else if !j.transient then PERMANENT
    else if j.maxRetries <= j.attempt then EXHAUSTED
    else RETRY
  }

  /** The per-attempt fields reset for the next attempt. */
  function PrepareRetry(j: Job): Job {
    j.(attempt := j.attempt + 1, ruling := None, node := None, k8sJob := None)
  }

  /**
   Rules on a job. Nothing is done if a ruling stands; a refusal is recorded; a retry walks
   FAILED, RETRYING, QUEUED.
   */
  function RuleRow(j: Job): Option<Job> {
    if j.ruling.Some? then Some(j)
    else if DecideRetry(j) != RETRY then Some(j.(ruling := Some(DecideRetry(j))))
    else
      var retrying := Moved(j, RETRYING);
      if retrying.None? then None else Moved(PrepareRetry(retrying.value), QUEUED)
  }

  /** Whether the retry driver's sweep lists a job. */
  predicate AwaitsRuling(j: Job) {
    j.state.FAILED? && j.ruling.None?
  }

  // --------------------------------------------------------------- what rows keep

  /** Every change a transaction can make to a row. */
  datatype Change =
    | Cancelled
    | Claimed
    | Requeued
    | Bound(to: nat)
    | Launched(named: nat)
    | CancellationFinished
    | Observed(seen: Phase)
    | Ruled

  function Changed(j: Job, c: Change): Option<Job> {
    match c
    case Cancelled => CancelRow(j)
    case Claimed => ClaimRow(j)
    case Requeued => RequeueRow(j)
    case Bound(to) => Some(BindRow(j, to))
    case Launched(named) => LaunchedRow(j, named)
    case CancellationFinished => FinishCancellationRow(j)
    case Observed(seen) => ObserveRow(j, seen)
    case Ruled => RuleRow(j)
  }

  function Apply(j: Job, c: Change): Job {
    if Changed(j, c).Some? then Changed(j, c).value else j
  }

  function ApplyAll(j: Job, cs: seq<Change>): Job {
    if cs == [] then j else Apply(ApplyAll(j, cs[..|cs| - 1]), cs[|cs| - 1])
  }

  /** One state leads to another by at most two legal moves. */
  predicate Leads(a: State, b: State) {
    a == b || b in Next(a) || exists m :: m in Next(a) && b in Next(m)
  }

  /** No transaction steps outside the table, whatever state it finds the row in. */
  lemma ChangesAreLegal(j: Job, c: Change)
    ensures Leads(j.state, Apply(j, c).state)
    ensures j.state in {SUCCEEDED, CANCELLED} ==> Apply(j, c).state == j.state
    ensures j.state == CANCELLING ==> Apply(j, c).state in {CANCELLING, CANCELLED}
  {
    if c.Ruled? && Changed(j, c).Some? && Apply(j, c).state != j.state {
      assert RETRYING in Next(j.state) && QUEUED in Next(RETRYING);
    } else if c.Cancelled? && Changed(j, c).Some? {
      assert CANCELLED in Next(CANCELLING);
    } else if c.Observed? && Changed(j, c).Some? {
      assert SUCCEEDED in Next(RUNNING);
    }
  }

  /**
   Which state an observation leaves a row in, and what else it records: a workload that succeeded
   makes a starting or running job SUCCEEDED; one that failed or is gone makes any job that has not
   ended FAILED, with the kind of failure, unless it has not been queued yet; one that runs takes
   STARTING to RUNNING; and nothing moves a job that is being cancelled or has ended.
   */
  lemma ObservationsMean(j: Job, seen: Phase)
    ensures var after := Apply(j, Observed(seen));
      var succeeds := seen.PodSucceeded? && j.state in {STARTING, RUNNING};
      var fails := (seen.PodFailed? || seen.Gone?) && j.state in {QUEUED, SCHEDULING, STARTING, RUNNING, RETRYING};
      var runs := seen.PodRunning? && j.state == STARTING;
      && (succeeds ==> after == j.(state := SUCCEEDED))
      && (fails ==> after == j.(state := State.FAILED, transient := if seen.PodFailed? then seen.transientFailure else seen.transientLoss))
      && (runs ==> after == j.(state := RUNNING))
      && (!succeeds && !fails && !runs ==> after == j)
    ensures ObserveRow(j, seen).None? <==>
      || ((seen.PodSucceeded? || seen.PodRunning?) && j.state in {CREATED, QUEUED, SCHEDULING, RETRYING})
      || ((seen.PodFailed? || seen.Gone?) && j.state == CREATED)
  {
  }

  /** Which jobs a cancel ends at once, which it only starts to end, and which it is refused for. */
  lemma CancelsMean(j: Job)
    ensures match j.state
      case CREATED => CancelRow(j) == Some(j.(state := CANCELLED))
      case QUEUED => CancelRow(j) == Some(j.(state := CANCELLED))
      case SCHEDULING => CancelRow(j) == Some(j.(state := CANCELLING))
      case STARTING => CancelRow(j) == Some(j.(state := CANCELLING))
      case RUNNING => CancelRow(j) == Some(j.(state := CANCELLING))
      case _ => CancelRow(j) == None
  {
  }

  /** A claim takes a queued job and no other, a launch one that is being scheduled, the end of a cancel one being cancelled; and only a job not launched is requeued. */
  lemma MovesMean(j: Job, named: nat)
    ensures ClaimRow(j) == if j.state == QUEUED then Some(j.(state := SCHEDULING)) else None
    ensures LaunchedRow(j, named) == if j.state == SCHEDULING then Some(j.(state := STARTING, k8sJob := Some(named))) else None
    ensures FinishCancellationRow(j) == if j.state in {CREATED, CANCELLING} then Some(j.(state := CANCELLED)) else None
    ensures RequeueRow(j) == if j.state in {CREATED, SCHEDULING, RETRYING} then Some(j.(state := QUEUED, node := None)) else None
  {
  }

  /**
   A job ruled on for the first time is queued again, as its next attempt and with nothing held of
   the last, exactly when it failed in a way another attempt can change with attempts left; and
   otherwise why not is recorded, and only that. A second ruling changes nothing.
   */
  lemma RulingsMean(j: Job)
    ensures var due := j.state == State.FAILED && j.transient && j.attempt < j.maxRetries;
      RuleRow(j) == Some(
        if j.ruling.Some? then j
        else if due then j.(state := QUEUED, attempt := j.attempt + 1, node := None, k8sJob := None)
        else j.(ruling := Some(if j.state != State.FAILED then NOT_APPLICABLE else if !j.transient then PERMANENT else EXHAUSTED)))
  {
  }

  ghost predicate WithinBudget(j: Job) {
    j.attempt <= j.maxRetries
  }

  /** The attempt counts up by one, only when a retry is granted, and never past the budget. */
  lemma AttemptsAreBudgeted(j: Job, c: Change)
    requires WithinBudget(j)
    ensures WithinBudget(Apply(j, c))
    ensures Apply(j, c).attempt == j.attempt || (Apply(j, c).attempt == j.attempt + 1 && c.Ruled? && j.state.FAILED?)
    ensures Apply(j, c).maxRetries == j.maxRetries && Apply(j, c).request == j.request && Apply(j, c).project == j.project
  {
  }

  /** No transaction leaves a row in a state that only exists inside one. */
  predicate Settled(j: Job) {
    !j.state.CREATED? && !j.state.RETRYING?
  }

  lemma RowsStaySettled(j: Job, c: Change)
    requires Settled(j)
    ensures Settled(Apply(j, c))
  {
  }

  /** A job reaches STARTING only from SCHEDULING, and gets back there only as a new attempt. */
  lemma RelaunchIsANewAttempt(j: Job, c: Change)
    requires Settled(j)
    ensures Apply(j, c).state.STARTING? && !j.state.STARTING? ==> j.state.SCHEDULING? && c.Launched?
    ensures !Unlaunched(j.state) && Unlaunched(Apply(j, c).state) ==> Apply(j, c).attempt == j.attempt + 1
  {
  }

  /** Cancelling is for good: whatever follows, the job only ever finishes being cancelled. */
  lemma {:induction false} CancellingOnlyEnds(j: Job, cs: seq<Change>)
    requires j.state.CANCELLING? || j.state.CANCELLED?
    ensures ApplyAll(j, cs).state.CANCELLING? || ApplyAll(j, cs).state.CANCELLED?
    ensures j.state.CANCELLED? ==> ApplyAll(j, cs).state.CANCELLED?
    ensures ApplyAll(j, cs).attempt == j.attempt
  {
    hide Apply;
    if cs != [] {
      var before := ApplyAll(j, cs[..|cs| - 1]);
      CancellingOnlyEnds(j, cs[..|cs| - 1]);
      ChangesAreLegal(before, cs[|cs| - 1]);
      AttemptSame(before, cs[|cs| - 1]);
    }
  }

  lemma AttemptSame(j: Job, c: Change)
    requires !j.state.FAILED?
    ensures Apply(j, c).attempt == j.attempt
  {
  }
}
