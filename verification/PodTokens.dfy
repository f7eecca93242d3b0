/**
 Whether a training pod can report: the token its Job was created with against the tokens in
 force (launchJob in services/executor.js, createJob being a no-op for a Job that exists),
 however many executors launch it.
 */
module PodTokens {
  import opened Prelude
  import opened Placement
  import opened Quota
  import opened JobLifecycle
  import opened Jobs
  import opened JobRuns
  import opened OneExecutor
  import T = RunTokens

  /** A token belongs to a job. */
  predicate HeldFor(ts: seq<T.Token>, t: nat, job: nat) {
    t < |ts| && ts[t].job == job
  }

  /** Another token was issued for the same job later. */
  ghost predicate Superseded(ts: seq<T.Token>, t: nat) {
    t < |ts| && exists i :: t < i < |ts| && ts[i].job == ts[t].job
  }

  /** Tokens are revoked by being superseded, and by nothing else. */
  ghost predicate RevokedBySuccessor(ts: seq<T.Token>) {
    forall t :: 0 <= t < |ts| ==> (ts[t].revoked <==> Superseded(ts, t))
  }

  ghost predicate PodsHoldTokens(w: World) {
    forall k :: k in w.cluster ==> HeldFor(w.tokens, w.cluster[k], k.0)
  }

  ghost predicate LaunchHoldsToken(x: Exec, ts: seq<T.Token>) {
    x.task.Launching? && x.task.launch.token.Some? ==> HeldFor(ts, x.task.launch.token.value, x.task.launch.job)
  }

  ghost predicate Credentialed(w: World) {
    && RevokedBySuccessor(w.tokens) && PodsHoldTokens(w)
    && forall e :: LaunchHoldsToken(ExecOf(w, e), w.tokens)
  }

  // ------------------------------------------------------------------- one step

  lemma IssuedSupersedes(ts: seq<T.Token>, job: nat, attempt: nat, expiresAt: Option<int>)
    requires RevokedBySuccessor(ts)
    ensures RevokedBySuccessor(T.Issued(ts, job, attempt, expiresAt))
  {
    var us := T.Issued(ts, job, attempt, expiresAt);
    forall t | 0 <= t < |us| ensures us[t].revoked <==> Superseded(us, t) {
      if t < |ts| {
        assert ts[t].revoked <==> Superseded(ts, t);
        if ts[t].job == job {
          assert us[|ts|].job == us[t].job;
        }
        if Superseded(ts, t) {
          var i :| t < i < |ts| && ts[i].job == ts[t].job;
          assert us[i].job == us[t].job;
        }
      }
    }
  }

  lemma ExpiredSupersedes(ts: seq<T.Token>, job: nat, until: int)
    requires RevokedBySuccessor(ts)
    ensures RevokedBySuccessor(T.Expired(ts, job, until))
  {
    var us := T.Expired(ts, job, until);
    forall t | 0 <= t < |us| ensures us[t].revoked <==> Superseded(us, t) {
      assert ts[t].revoked <==> Superseded(ts, t);
      if Superseded(ts, t) {
        var i :| t < i < |ts| && ts[i].job == ts[t].job;
        assert us[i].job == us[t].job;
      }
    }
  }

  lemma StepSupersedes(w: World, ev: Event)
    requires RevokedBySuccessor(w.tokens)
    ensures RevokedBySuccessor(TokensAfter(w, ev))
  {
    hide T.Issued, T.Expired, RevokedBySuccessor;
    match ev {
      case IssueToken(e, expiresAt) =>
        if ExecOf(w, e).task.Launching? {
          IssuedSupersedes(w.tokens, ExecOf(w, e).task.launch.job, ExecOf(w, e).task.launch.attempt, expiresAt);
        }
      case Expire(e, until) =>
        if ExecOf(w, e).task.Expiring? {
          ExpiredSupersedes(w.tokens, ExecOf(w, e).task.job, until);
        }
      case _ =>
    }
  }

  /** Tokens never change hands. */
  lemma TokensKept(w: World, ev: Event, t: nat, job: nat)
    requires HeldFor(w.tokens, t, job)
    ensures HeldFor(TokensAfter(w, ev), t, job)
  {
    hide ExecOf;
  }

  lemma StepKeepsPods(w: World, ev: Event)
    requires Credentialed(w)
    ensures PodsHoldTokens(Step(w, ev))
  {
    hide TokensAfter, JobsAfter, ExecsAfter, StartsAfter, TakesUp, HeldFor, RevokedBySuccessor;
    forall k | k in ClusterAfter(w, ev) ensures HeldFor(TokensAfter(w, ev), ClusterAfter(w, ev)[k], k.0) {
      if ev.CreateJob? { assert LaunchHoldsToken(ExecOf(w, ev.exec), w.tokens); }
      TokensKept(w, ev, ClusterAfter(w, ev)[k], k.0);
    }
  }

  lemma LaunchAfter(w: World, ev: Event, e: nat)
    ensures var before, after := ExecOf(w, e).task, ExecOf(Step(w, ev), e).task;
      after.Launching? && after.launch.token.Some? ==>
        before.Launching? && after.launch.job == before.launch.job &&
        (after.launch.token == before.launch.token
         || (ev.IssueToken? && after.launch.token == Some(|w.tokens|)
             && HeldFor(TokensAfter(w, ev), |w.tokens|, before.launch.job)))
  {
    hide JobsAfter, StartsAfter, ClusterAfter, Decided, Shown, WriteOf, Ends;
  }

  lemma StepKeepsCredentialed(w: World, ev: Event)
    requires Credentialed(w)
    ensures Credentialed(Step(w, ev))
  {
    hide PodsHoldTokens, HeldFor, JobsAfter, StartsAfter, ClusterAfter, ExecsAfter, TokensAfter, RevokedBySuccessor;
    StepKeepsPods(w, ev);
    StepSupersedes(w, ev);
    forall e ensures LaunchHoldsToken(ExecOf(Step(w, ev), e), TokensAfter(w, ev)) {
      LaunchAfter(w, ev, e);
      var before := ExecOf(w, e);
      assert LaunchHoldsToken(before, w.tokens);
      if before.task.Launching? && before.task.launch.token.Some? {
        TokensKept(w, ev, before.task.launch.token.value, before.task.launch.job);
      }
    }
  }

  lemma {:induction false} RunKeepsCredentialed(nodes: seq<Node>, quotas: map<nat, Quota>, evs: seq<Event>)
    ensures Credentialed(Run(Start(nodes, quotas), evs))
  {
    hide Step;
    if evs != [] {
      RunKeepsCredentialed(nodes, quotas, evs[..|evs| - 1]);
      StepKeepsCredentialed(Run(Start(nodes, quotas), evs[..|evs| - 1]), evs[|evs| - 1]);
    }
  }

  // -------------------------------------------------------------------- the results

  /**
   Over every run, with any number of executors and crashes: the pod of a Job in the cluster holds
   a revoked token exactly when its job was issued another after the one the Job was created with.
   */
  lemma PodIsCutOffIff(nodes: seq<Node>, quotas: map<nat, Quota>, evs: seq<Event>, k: (nat, nat))
    requires k in Run(Start(nodes, quotas), evs).cluster
    ensures var w := Run(Start(nodes, quotas), evs);
      && w.cluster[k] < |w.tokens|
      && (w.tokens[w.cluster[k]].revoked <==> Superseded(w.tokens, w.cluster[k]))
  {
    hide Run, Superseded;
    RunKeepsCredentialed(nodes, quotas, evs);
    assert HeldFor(Run(Start(nodes, quotas), evs).tokens, Run(Start(nodes, quotas), evs).cluster[k], k.0);
  }

  /**
   When an executor asks for the Job of its launch, its pod can report exactly when the Job was
   not there and no other launch has been issued a token since, or it was there and none has been
   issued since it was created.
   */
  lemma LaunchCanReportIff(nodes: seq<Node>, quotas: map<nat, Quota>, evs: seq<Event>, e: nat)
    requires var task := ExecOf(Run(Start(nodes, quotas), evs), e).task; task.Launching? && task.launch.token.Some?
    ensures var w := Run(Start(nodes, quotas), evs);
      var launch, after := ExecOf(w, e).task.launch, Step(w, CreateJob(e));
      var k := (launch.job, launch.attempt);
      && k in after.cluster && after.cluster[k] < |after.tokens|
      && (after.tokens[after.cluster[k]].revoked
          <==> Superseded(w.tokens, if k in w.cluster then w.cluster[k] else launch.token.value))
  {
    hide Run, JobsAfter, ExecsAfter, StartsAfter, Superseded, HeldFor;
    RunKeepsCredentialed(nodes, quotas, evs);
    var w := Run(Start(nodes, quotas), evs);
    assert LaunchHoldsToken(ExecOf(w, e), w.tokens);
    HeldMeans(w.tokens, ExecOf(w, e).task.launch.token.value, ExecOf(w, e).task.launch.job);
    if k :| k in w.cluster && k == (ExecOf(w, e).task.launch.job, ExecOf(w, e).task.launch.attempt) {
      HeldMeans(w.tokens, w.cluster[k], k.0);
    }
  }

  lemma HeldMeans(ts: seq<T.Token>, t: nat, job: nat)
    requires HeldFor(ts, t, job)
    ensures t < |ts| && ts[t].job == job
  {
  }

  // ---------------------------------------------------------------- one executor

  /** A lone executor's launch holds the last token issued, and no pod has it until the Job is created. */
  ghost predicate HoldsTheLast(w: World) {
    var task := ExecOf(w, SOLE).task;
    task.Launching? && task.launch.token.Some? ==>
      && task.launch.token.value == |w.tokens| - 1
      && (!task.launch.created ==> forall k :: k in w.cluster ==> w.cluster[k] != task.launch.token.value)
  }

  lemma SoleLaunchAfter(w: World, ev: Event)
    requires Sole(ev)
    ensures var before, after := ExecOf(w, SOLE).task, ExecOf(Step(w, ev), SOLE).task;
      after.Launching? && after.launch.token.Some? ==>
        before.Launching? && after.launch.job == before.launch.job &&
        (if ev.IssueToken? && before.launch.token.None?
         then after.launch == before.launch.(token := Some(|w.tokens|)) && |TokensAfter(w, ev)| == |w.tokens| + 1
         else |TokensAfter(w, ev)| == |w.tokens|
              && if ev.CreateJob? then before.launch.token.Some? && after.launch == before.launch.(created := true)
                 else after == before)
  {
    hide JobsAfter, StartsAfter, ClusterAfter, Decided, Shown, WriteOf, Ends;
  }

  lemma StepHoldsTheLast(w: World, ev: Event)
    requires Sole(ev) && Credentialed(w) && HoldsTheLast(w)
    ensures HoldsTheLast(Step(w, ev))
  {
    hide JobsAfter, ExecsAfter, StartsAfter, TokensAfter, TakesUp, RevokedBySuccessor;
    SoleLaunchAfter(w, ev);
  }

  lemma {:induction false} RunHoldsTheLast(nodes: seq<Node>, quotas: map<nat, Quota>, evs: seq<Event>)
    requires AllSole(evs)
    ensures HoldsTheLast(Run(Start(nodes, quotas), evs))
  {
    hide Step, Sole, Credentialed;
    if evs != [] {
      RunHoldsTheLast(nodes, quotas, evs[..|evs| - 1]);
      RunKeepsCredentialed(nodes, quotas, evs[..|evs| - 1]);
      StepHoldsTheLast(Run(Start(nodes, quotas), evs[..|evs| - 1]), evs[|evs| - 1]);
    }
  }

  /**
   With one executor, when a launch asks for its Job, the pod can report exactly when the Job was
   not there already. A Job left by a launch that was interrupted keeps the token that launch gave
   it, and issuing this launch's token has just revoked that one.
   */
  lemma PodCanReportIff(nodes: seq<Node>, quotas: map<nat, Quota>, evs: seq<Event>)
    requires AllSole(evs)
    requires var task := ExecOf(Run(Start(nodes, quotas), evs), SOLE).task;
      task.Launching? && task.launch.token.Some? && !task.launch.created
    ensures var w := Run(Start(nodes, quotas), evs);
      var launch := ExecOf(w, SOLE).task.launch;
      var k, after := (launch.job, launch.attempt), Step(w, CreateJob(SOLE));
      && k in after.cluster && after.cluster[k] < |after.tokens|
      && (!after.tokens[after.cluster[k]].revoked <==> k !in w.cluster)
  {
    hide Run, Step;
    LaunchCanReportIff(nodes, quotas, evs, SOLE);
    RunHoldsTheLast(nodes, quotas, evs);
    RunKeepsCredentialed(nodes, quotas, evs);
    var w := Run(Start(nodes, quotas), evs);
    var launch := ExecOf(w, SOLE).task.launch;
    assert LaunchHoldsToken(ExecOf(w, SOLE), w.tokens);
    var k := (launch.job, launch.attempt);
    if k in w.cluster {
      assert HeldFor(w.tokens, w.cluster[k], k.0);
      assert w.tokens[|w.tokens| - 1].job == launch.job;
      assert Superseded(w.tokens, w.cluster[k]);
    }
  }
}
