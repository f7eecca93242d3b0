/**
 What an executor makes of a job it takes up, when nothing comes in between: from any state, with
 any other executors at rest or half way through something, and whatever happened before.
 */
module Rounds {
  import opened Prelude
  import opened JobLifecycle
  import opened Jobs
  import T = RunTokens

  /** An executor's own step changes what it remembers, one row, the cluster, the tokens and the starts. */
  function Acted(w: World, e: nat, x: Exec): World {
    w.(execs := w.execs[e := x])
  }

  predicate AtRest(w: World, e: nat) {
    ExecOf(w, e).task.Resting?
  }

  /** A job is at hand: an executor with nothing else to do has read its row as it is. */
  predicate AtHand(w: World, e: nat, j: nat) {
    TakesUp(w, e, j) && ExecOf(w, e).listed[j] == w.jobs[j]
  }

  lemma Lists(w: World, e: nat, j: nat)
    requires AtRest(w, e) && j < |w.jobs| && Occupying(w.jobs[j].state)
    ensures var v := Step(w, List(e));
      v == Acted(w, e, ExecOf(v, e)) && AtHand(v, e, j)
  {
  }

  lemma TakesOff(w: World, e: nat, j: nat, seen: Phase)
    requires TakesUp(w, e, j)
    ensures var v := Step(w, Handle(e, j, seen));
      && ExecOf(v, e) == AfterTakingUp(w, e, j, seen)
      && v == Acted(w, e, ExecOf(v, e)).(jobs := v.jobs, cluster := v.cluster)
    ensures HandleWrite(w, e, j).None? ==> Step(w, Handle(e, j, seen)).jobs == w.jobs
    ensures !ExecOf(w, e).listed[j].state.CANCELLING? ==> Step(w, Handle(e, j, seen)).cluster == w.cluster
  {
    hide Decided, Shown;
  }

  // --------------------------------------------------------------- a job that runs

  function Observing(w: World, e: nat, j: nat, seen: Phase): World {
    Step(Step(Step(w, List(e)), Handle(e, j, seen)), Record(e))
  }

  /** What is to be recorded of a job whose Job is, or is not, in the cluster. */
  function Outcome(row: Job, there: bool, seen: Phase): Job {
    if !there then row.(state := State.FAILED, transient := seen.Gone? && seen.transientLoss)
    else
      match seen
      case PodSucceeded => row.(state := SUCCEEDED)
      case PodFailed(transientFailure) => row.(state := State.FAILED, transient := transientFailure)
      case PodRunning => row.(state := RUNNING)
      case _ => row
  }

  /**
   One pass over a job that has been launched records what has become of it: succeeded, failed and
   how, running, or, when the Job recorded is no longer in the cluster, failed; and touches no other
   row, no Job and no token.
   */
  lemma OutcomeIsRecorded(w: World, e: nat, j: nat, seen: Phase)
    requires AtRest(w, e) && j < |w.jobs| && w.jobs[j].state in {STARTING, RUNNING}
    ensures var v := Observing(w, e, j, seen);
      var there := w.jobs[j].k8sJob.Some? && (j, w.jobs[j].k8sJob.value) in w.cluster;
      && v.jobs == w.jobs[j := Outcome(w.jobs[j], there, seen)]
      && v.cluster == w.cluster && v.tokens == w.tokens && v.starts == w.starts
  {
    hide Step, Decided, Outcome, Apply;
    Lists(w, e, j);
    var listed := Step(w, List(e));
    TakesOff(listed, e, j, seen);
    Records(Step(listed, Handle(e, j, seen)), e, j, Shown(w, j, w.jobs[j].k8sJob, seen));
    ShownMeans(w, j, seen);
  }

  lemma Records(w: World, e: nat, j: nat, seen: Phase)
    requires ExecOf(w, e).task == Recording(j, seen) && j < |w.jobs|
    ensures var v := Step(w, Record(e));
      v == Acted(w, e, ExecOf(v, e)).(jobs := w.jobs[j := Apply(w.jobs[j], Observed(seen))])
  {
    hide Apply;
  }

  lemma ShownMeans(w: World, j: nat, seen: Phase)
    requires j < |w.jobs| && w.jobs[j].state in {STARTING, RUNNING}
    ensures var row := w.jobs[j];
      var there := row.k8sJob.Some? && (j, row.k8sJob.value) in w.cluster;
      Apply(row, Observed(Shown(w, j, row.k8sJob, seen))) == Outcome(row, there, seen)
  {
  }

  // ----------------------------------------------------------- a job being cancelled

  /** One pass over a job being cancelled deletes the Job recorded, or its attempt's, and cancels it. */
  lemma CancelIsFinished(w: World, e: nat, j: nat, seen: Phase)
    requires AtRest(w, e) && j < |w.jobs| && w.jobs[j].state == CANCELLING
    ensures var v := Step(Step(Step(w, List(e)), Handle(e, j, seen)), FinishCancel(e));
      var named := if w.jobs[j].k8sJob.Some? then w.jobs[j].k8sJob.value else w.jobs[j].attempt;
      && v.jobs == w.jobs[j := w.jobs[j].(state := CANCELLED)]
      && v.cluster == w.cluster - {(j, named)} && v.tokens == w.tokens && v.starts == w.starts
  {
    hide Step, Decided, Apply;
    Lists(w, e, j);
    var listed := Step(w, List(e));
    TakesOff(listed, e, j, seen);
    Deletes(listed, e, j, seen);
    EndsCancel(Step(listed, Handle(e, j, seen)), e, j);
  }

  lemma Deletes(w: World, e: nat, j: nat, seen: Phase)
    requires TakesUp(w, e, j) && ExecOf(w, e).listed[j].state.CANCELLING?
    ensures var read := ExecOf(w, e).listed[j];
      Step(w, Handle(e, j, seen)).cluster
      == w.cluster - {(j, if read.k8sJob.Some? then read.k8sJob.value else read.attempt)}
  {
  }

  lemma EndsCancel(w: World, e: nat, j: nat)
    requires ExecOf(w, e).task == Finishing(j) && j < |w.jobs| && w.jobs[j].state == CANCELLING
    ensures var v := Step(w, FinishCancel(e));
      v == Acted(w, e, ExecOf(v, e)).(jobs := w.jobs[j := w.jobs[j].(state := CANCELLED)])
  {
  }

  // ---------------------------------------------------------- a job to be launched

  function Launch3(w: World, e: nat, expiresAt: Option<int>): World {
    Step(Step(Step(w, IssueToken(e, expiresAt)), CreateJob(e)), MarkLaunched(e))
  }

  /** A launch gives the job a token of its own, sees to it that its attempt's Job is there, and marks the row. */
  lemma LaunchIsMade(w: World, e: nat, j: nat, expiresAt: Option<int>)
    requires j < |w.jobs| && w.jobs[j].state == SCHEDULING
    requires ExecOf(w, e).task == Launching(Launch(j, w.jobs[j].attempt, None, false))
    ensures var v, row := Launch3(w, e, expiresAt), w.jobs[j];
      var k := (j, row.attempt);
      && v.jobs == w.jobs[j := row.(state := STARTING, k8sJob := Some(row.attempt))]
      && v.cluster == (if k in w.cluster then w.cluster else w.cluster[k := |w.tokens|])
      && |v.tokens| == |w.tokens| + 1 && v.tokens[|w.tokens|] == T.Token(j, row.attempt, expiresAt, false)
      && (forall i :: 0 <= i < |w.tokens| ==>
           v.tokens[i] == if w.tokens[i].job == j then w.tokens[i].(revoked := true) else w.tokens[i])
      && v.starts == w.starts + [Jobs.Recorded(j, row.attempt, row.attempt)]
      && AtRest(v, e)
  {
    hide Step;
    var launch := Launch(j, w.jobs[j].attempt, None, false);
    Issues(w, e, launch, expiresAt);
    var issued := Step(w, IssueToken(e, expiresAt));
    launch := launch.(token := Some(|w.tokens|));
    Creates(issued, e, launch);
    Marks(Step(issued, CreateJob(e)), e, launch.(created := true));
  }

  lemma Issues(w: World, e: nat, launch: Launch, expiresAt: Option<int>)
    requires ExecOf(w, e).task == Launching(launch) && launch.token.None?
    ensures var v := Step(w, IssueToken(e, expiresAt));
      && v == Acted(w, e, ExecOf(v, e)).(tokens := T.Issued(w.tokens, launch.job, launch.attempt, expiresAt))
      && ExecOf(v, e).task == Launching(launch.(token := Some(|w.tokens|)))
  {
  }

  lemma Creates(w: World, e: nat, launch: Launch)
    requires ExecOf(w, e).task == Launching(launch) && launch.token.Some?
    ensures var v, k := Step(w, CreateJob(e)), (launch.job, launch.attempt);
      && v == Acted(w, e, ExecOf(v, e)).(cluster := if k in w.cluster then w.cluster else w.cluster[k := launch.token.value])
      && ExecOf(v, e).task == Launching(launch.(created := true))
  {
  }

  lemma Marks(w: World, e: nat, launch: Launch)
    requires ExecOf(w, e).task == Launching(launch) && launch.created && launch.job < |w.jobs|
    requires w.jobs[launch.job].state == SCHEDULING
    ensures var v, row := Step(w, MarkLaunched(e)), w.jobs[launch.job];
      && v == Acted(w, e, ExecOf(v, e)).(jobs := w.jobs[launch.job := row.(state := STARTING, k8sJob := Some(launch.attempt))],
                                         starts := w.starts + [Jobs.Recorded(launch.job, row.attempt, launch.attempt)])
      && AtRest(v, e)
  {
  }

  /**
   A claimed job is bound to the node decided on and about to be launched, at its own attempt; or
   there is none, and it is back in the queue.
   */
  lemma ClaimIsPlaced(w: World, e: nat, j: nat, seen: Phase)
    requires AtHand(w, e, j) && w.jobs[j].state == SCHEDULING && w.jobs[j].node.None?
    ensures var placed := Step(w, Handle(e, j, seen));
      if Decided(w, j).None? then
        placed.jobs == w.jobs[j := w.jobs[j].(state := QUEUED)] && placed.cluster == w.cluster && AtRest(placed, e)
      else
        var v := Step(placed, Reread(e));
        && v == Acted(w, e, ExecOf(v, e)).(jobs := w.jobs[j := w.jobs[j].(node := Decided(w, j))])
        && ExecOf(v, e).task == Launching(Launch(j, w.jobs[j].attempt, None, false))
  {
    hide Step, Decided, Shown, Apply;
    TakesOff(w, e, j, seen);
    Binds(w, e, j, seen);
    if Decided(w, j).Some? {
      Rereads(Step(w, Handle(e, j, seen)), e, j);
    }
  }

  lemma Binds(w: World, e: nat, j: nat, seen: Phase)
    requires AtHand(w, e, j) && w.jobs[j].state == SCHEDULING && w.jobs[j].node.None?
    ensures Step(w, Handle(e, j, seen)).jobs ==
      w.jobs[j := if Decided(w, j).Some? then w.jobs[j].(node := Decided(w, j)) else w.jobs[j].(state := QUEUED)]
  {
    hide Decided;
  }

  lemma Rereads(w: World, e: nat, j: nat)
    requires ExecOf(w, e).task == Rereading(j) && j < |w.jobs|
    ensures var v := Step(w, Reread(e));
      v == Acted(w, e, ExecOf(v, e)) && ExecOf(v, e).task == Launching(Launch(j, w.jobs[j].attempt, None, false))
  {
  }

  lemma Claims(w: World, e: nat, exclude: set<nat>, j: nat)
    requires AtRest(w, e) && NextQueued(w.jobs, exclude, |w.jobs|) == Some(j)
    ensures var v := Step(w, Claim(e, exclude));
      v == Acted(w, e, ExecOf(v, e)).(jobs := w.jobs[j := w.jobs[j].(state := SCHEDULING)]) && AtHand(v, e, j)
  {
    hide NextQueued;
  }

  /** Claimed, placed and launched, in one pass with nothing in between. */
  function Admitting(w: World, e: nat, exclude: set<nat>, j: nat, expiresAt: Option<int>): World {
    Launch3(Step(Step(Step(w, Claim(e, exclude)), Handle(e, j, PodPending)), Reread(e)), e, expiresAt)
  }

  /**
   The whole way of a job: from any state in which it is next in the queue and can be placed, one
   pass starts it on the node decided on, with its attempt's Job in the cluster and a token issued
   to it; and a pass that then sees its pod succeed leaves it SUCCEEDED, on its first attempt or any
   other, all else about it as it was.
   */
  lemma QueuedJobSucceeds(w: World, e: nat, exclude: set<nat>, j: nat, expiresAt: Option<int>)
    requires AtRest(w, e) && NextQueued(w.jobs, exclude, |w.jobs|) == Some(j) && w.jobs[j].node.None?
    requires Decided(Step(w, Claim(e, exclude)), j).Some?
    ensures var node := Decided(Step(w, Claim(e, exclude)), j);
      var v := Admitting(w, e, exclude, j, expiresAt);
      var attempt := w.jobs[j].attempt;
      && v.jobs == w.jobs[j := w.jobs[j].(state := STARTING, node := node, k8sJob := Some(attempt))]
      && (j, attempt) in v.cluster && |v.tokens| == |w.tokens| + 1
      && v.tokens[|w.tokens|] == T.Token(j, attempt, expiresAt, false)
      && Observing(v, e, j, PodSucceeded).jobs
         == w.jobs[j := w.jobs[j].(state := SUCCEEDED, node := node, k8sJob := Some(attempt))]
  {
    hide Step, Decided, NextQueued, Observing, Launch3;
    Claims(w, e, exclude, j);
    var claimed := Step(w, Claim(e, exclude));
    ClaimIsPlaced(claimed, e, j, PodPending);
    LaunchIsMade(Step(Step(claimed, Handle(e, j, PodPending)), Reread(e)), e, j, expiresAt);
    OutcomeIsRecorded(Admitting(w, e, exclude, j, expiresAt), e, j, PodSucceeded);
  }

  // ------------------------------------------------------------- a job that failed

  /** A failure listed and ruled on is tried again exactly when it may pass and attempts are left. */
  lemma RetryIsGranted(w: World, e: nat, j: nat)
    requires AtRest(w, e) && j < |w.jobs| && w.jobs[j].state == State.FAILED && w.jobs[j].ruling.None?
    ensures var v, row := Step(Step(w, ListFailed(e)), Rule(e, j)), w.jobs[j];
      v.jobs == w.jobs[j :=
        if row.transient && row.attempt < row.maxRetries
        then row.(state := QUEUED, attempt := row.attempt + 1, node := None, k8sJob := None)
        else row.(ruling := Some(if row.transient then EXHAUSTED else PERMANENT))]
  {
    hide Step;
    ListsFailed(w, e, j);
    Rules(Step(w, ListFailed(e)), e, j);
    RulingsMean(w.jobs[j]);
  }

  lemma ListsFailed(w: World, e: nat, j: nat)
    requires AtRest(w, e) && j < |w.jobs| && AwaitsRuling(w.jobs[j])
    ensures var v := Step(w, ListFailed(e));
      v == Acted(w, e, ExecOf(v, e)) && AtRest(v, e) && j in ExecOf(v, e).failed
  {
  }

  lemma Rules(w: World, e: nat, j: nat)
    requires AtRest(w, e) && j in ExecOf(w, e).failed && j < |w.jobs|
    ensures Step(w, Rule(e, j)).jobs == w.jobs[j := Apply(w.jobs[j], Ruled)]
  {
    hide Apply;
  }
}
