/**
 What every run keeps, however many executors take part, crash, and come in between one
 another.
 */
module JobRuns {
  import opened Prelude
  import opened Placement
  import opened Quota
  import opened JobLifecycle
  import opened Jobs
  import T = RunTokens

  predicate RowSound(j: Job) {
    Settled(j) && j.attempt <= j.maxRetries
  }

  ghost predicate RowsSound(jobs: seq<Job>) {
    forall j :: 0 <= j < |jobs| ==> RowSound(jobs[j])
  }

  /** A recorded launch is of an attempt the job has reached, and has left SCHEDULING behind. */
  predicate StartSound(s: Recorded, jobs: seq<Job>) {
    && s.job < |jobs| && s.attempt <= jobs[s.job].attempt
    && (s.attempt == jobs[s.job].attempt ==> !Unlaunched(jobs[s.job].state))
  }

  predicate SameAttempt(s: Recorded, t: Recorded) {
    s.job == t.job && s.attempt == t.attempt
  }

  ghost predicate StartsSound(w: World) {
    && (forall i :: 0 <= i < |w.starts| ==> StartSound(w.starts[i], w.jobs))
    && (forall i, k :: 0 <= i < k < |w.starts| ==> !SameAttempt(w.starts[i], w.starts[k]))
  }

  ghost predicate Sound(w: World) {
    RowsSound(w.jobs) && StartsSound(w) && T.OnlyLatest(w.tokens)
  }

  /** A step writes one row at most, by one of the transactions, or adds a row. */
  lemma RowAfter(w: World, ev: Event, j: nat)
    requires j < |w.jobs|
    ensures |JobsAfter(w, ev)| >= |w.jobs|
    ensures var write := WriteOf(w, ev);
      JobsAfter(w, ev)[j] ==
        if write.Some? && write.value.job == j then Apply(w.jobs[j], write.value.change) else w.jobs[j]
  {
    hide WriteOf, Apply;
    assert ev.Submit? ==> WriteOf(w, ev).None? by {
      NoWriteOnSubmit(w, ev);
    }
  }

  lemma NoWriteOnSubmit(w: World, ev: Event)
    ensures ev.Submit? ==> WriteOf(w, ev).None?
  {
  }

  lemma NewRows(w: World, ev: Event, j: nat)
    requires |w.jobs| <= j < |JobsAfter(w, ev)|
    ensures ev.Submit? && JobsAfter(w, ev)[j] == Submitted(ev.project, ev.request, ev.priority, ev.maxRetries, ev.at)
  {
    hide WriteOf, Apply;
  }

  lemma ApplyKeepsRowSound(j: Job, c: Change)
    requires RowSound(j)
    ensures RowSound(Apply(j, c))
  {
    hide Apply;
    AttemptsAreBudgeted(j, c);
    RowsStaySettled(j, c);
  }

  lemma StepKeepsRows(w: World, ev: Event)
    requires RowsSound(w.jobs)
    ensures RowsSound(JobsAfter(w, ev))
  {
    hide JobsAfter, Apply, RowSound;
    forall j | 0 <= j < |JobsAfter(w, ev)| ensures RowSound(JobsAfter(w, ev)[j]) {
      if j < |w.jobs| {
        RowAfter(w, ev, j);
        if WriteOf(w, ev).Some? {
          ApplyKeepsRowSound(w.jobs[j], WriteOf(w, ev).value.change);
        }
      } else {
        NewRows(w, ev, j);
        NewRowSound(ev.project, ev.request, ev.priority, ev.maxRetries, ev.at);
      }
    }
  }

  lemma NewRowSound(project: nat, request: Request, priority: Priority, maxRetries: nat, at: int)
    ensures RowSound(Submitted(project, request, priority, maxRetries, at))
  {
  }

  /** A row moves on from an attempt it has launched only by ending it or starting the next. */
  lemma StartStaysSound(s: Recorded, w: World, ev: Event)
    requires RowsSound(w.jobs) && StartSound(s, w.jobs)
    ensures StartSound(s, JobsAfter(w, ev))
  {
    hide JobsAfter, Apply;
    var j := s.job;
    RowAfter(w, ev, j);
    if WriteOf(w, ev).Some? {
      AttemptsAreBudgeted(w.jobs[j], WriteOf(w, ev).value.change);
      RelaunchIsANewAttempt(w.jobs[j], WriteOf(w, ev).value.change);
    }
  }

  /** What a launch records was not recorded before. */
  lemma NewStart(w: World, ev: Event)
    requires RowsSound(w.jobs) && StartsSound(w) && StartsAfter(w, ev) != w.starts
    ensures |StartsAfter(w, ev)| == |w.starts| + 1 && StartsAfter(w, ev)[..|w.starts|] == w.starts
    ensures var s := StartsAfter(w, ev)[|w.starts|];
      && StartSound(s, JobsAfter(w, ev))
      && forall i :: 0 <= i < |w.starts| ==> !SameAttempt(w.starts[i], s)
  {
    hide WriteOf, JobsAfter;
    RowAfter(w, ev, WriteOf(w, ev).value.job);
    var s := StartsAfter(w, ev)[|w.starts|];
    assert !StartSound(s, w.jobs);
  }

  lemma StepKeepsStarts(w: World, ev: Event)
    requires RowsSound(w.jobs) && StartsSound(w)
    ensures StartsSound(Step(w, ev))
  {
    hide StartSound, StartsAfter, JobsAfter, RowsSound, ClusterAfter, TokensAfter, ExecsAfter;
    forall i | 0 <= i < |w.starts| ensures StartSound(w.starts[i], JobsAfter(w, ev)) {
      StartStaysSound(w.starts[i], w, ev);
    }
    if StartsAfter(w, ev) != w.starts {
      NewStart(w, ev);
      assert forall i :: 0 <= i < |w.starts| ==> StartsAfter(w, ev)[i] == w.starts[i];
    }
  }

  /** The changes a step makes to the tokens are those of the token table. */
  lemma StepKeepsTokens(w: World, ev: Event)
    requires T.OnlyLatest(w.tokens)
    ensures T.OnlyLatest(TokensAfter(w, ev))
  {
    hide T.Issued, T.Expired, T.OnlyLatest;
    match ev {
      case IssueToken(e, expiresAt) =>
        if ExecOf(w, e).task.Launching? {
          TokensIssued(w.tokens, ExecOf(w, e).task.launch, expiresAt);
        }
      case Expire(e, until) =>
        if ExecOf(w, e).task.Expiring? {
          TokensExpired(w.tokens, ExecOf(w, e).task.job, until);
        }
      case _ =>
    }
  }

  lemma TokensIssued(ts: seq<T.Token>, launch: Launch, expiresAt: Option<int>)
    requires T.OnlyLatest(ts)
    ensures T.OnlyLatest(T.Issued(ts, launch.job, launch.attempt, expiresAt))
  {
    T.ChangeKeepsOnlyLatest(ts, T.Issue(launch.job, launch.attempt, expiresAt));
  }

  lemma TokensExpired(ts: seq<T.Token>, job: nat, until: int)
    requires T.OnlyLatest(ts)
    ensures T.OnlyLatest(T.Expired(ts, job, until))
  {
    T.ChangeKeepsOnlyLatest(ts, T.Expire(job, until));
  }

  lemma {:induction false} RunKeepsSound(nodes: seq<Node>, quotas: map<nat, Quota>, evs: seq<Event>)
    ensures Sound(Run(Start(nodes, quotas), evs))
  {
    hide Step, RowsSound, StartsSound, T.OnlyLatest;
    if evs != [] {
      RunKeepsSound(nodes, quotas, evs[..|evs| - 1]);
      StepKeepsSound(Run(Start(nodes, quotas), evs[..|evs| - 1]), evs[|evs| - 1]);
    } else {
      StartIsSound(nodes, quotas);
    }
  }

  lemma StartIsSound(nodes: seq<Node>, quotas: map<nat, Quota>)
    ensures Sound(Start(nodes, quotas))
  {
  }

  lemma StepKeepsSound(w: World, ev: Event)
    requires Sound(w)
    ensures Sound(Step(w, ev))
  {
    hide RowsSound, StartsSound, T.OnlyLatest, JobsAfter, StartsAfter, TokensAfter, ExecsAfter, ClusterAfter;
    StepKeepsRows(w, ev);
    StepKeepsStarts(w, ev);
    StepKeepsTokens(w, ev);
  }

  // ------------------------------------------------------------------ the results

  function LaunchesOf(starts: seq<Recorded>, job: nat): (launches: seq<Recorded>)
    ensures forall s :: s in launches <==> s in starts && s.job == job
  {
    if starts == [] then []
    else
      var n := |starts| - 1;
      assert starts == starts[..n] + [starts[n]];
      LaunchesOf(starts[..n], job) + (if starts[n].job == job then [starts[n]] else [])
  }

  lemma {:induction false} DistinctAttempts(starts: seq<Recorded>, job: nat, i: nat, k: nat)
    requires forall a, b :: 0 <= a < b < |starts| ==> !SameAttempt(starts[a], starts[b])
    requires i < k < |LaunchesOf(starts, job)|
    ensures LaunchesOf(starts, job)[i].attempt != LaunchesOf(starts, job)[k].attempt
  {
    var n := |starts| - 1;
    var before := LaunchesOf(starts[..n], job);
    if k < |before| {
      DistinctAttempts(starts[..n], job, i, k);
    } else {
      assert before[i] in before;
      assert before[i] in starts[..n] && before[i].job == job;
    }
  }

  lemma {:induction false} SizeOfDistinct(s: seq<int>)
    requires forall i, k :: 0 <= i < k < |s| ==> s[i] != s[k]
    ensures |set a | a in s| == |s|
  {
    if s != [] {
      var n := |s| - 1;
      SizeOfDistinct(s[..n]);
      assert s == s[..n] + [s[n]] && s[n] !in s[..n];
      assert (set a | a in s) == (set a | a in s[..n]) + {s[n]};
    }
  }

  lemma DistinctBelow(s: seq<int>, bound: nat)
    requires forall i, k :: 0 <= i < k < |s| ==> s[i] != s[k]
    requires forall a :: a in s ==> 0 <= a < bound
    ensures |s| <= bound
  {
    SizeOfDistinct(s);
    SubsetSize((set a | a in s), Interval(0, bound));
  }

  function AttemptsOf(launches: seq<Recorded>): (attempts: seq<int>)
    ensures |attempts| == |launches|
    ensures forall i :: 0 <= i < |launches| ==> attempts[i] == launches[i].attempt
  {
    seq(|launches|, i requires 0 <= i < |launches| => launches[i].attempt)
  }

  /**
   However a run went, a job was launched at most max_retries + 1 times, each at a different
   attempt of its row.
   */
  lemma LaunchesAreBudgeted(nodes: seq<Node>, quotas: map<nat, Quota>, evs: seq<Event>, job: nat)
    requires job < |Run(Start(nodes, quotas), evs).jobs|
    ensures var w := Run(Start(nodes, quotas), evs);
      |LaunchesOf(w.starts, job)| <= w.jobs[job].maxRetries + 1
    ensures var launches := LaunchesOf(Run(Start(nodes, quotas), evs).starts, job);
      forall i, k :: 0 <= i < k < |launches| ==> launches[i].attempt != launches[k].attempt
  {
    hide Run, LaunchesOf;
    RunKeepsSound(nodes, quotas, evs);
    var w := Run(Start(nodes, quotas), evs);
    var launches := LaunchesOf(w.starts, job);
    forall i, k | 0 <= i < k < |launches| ensures launches[i].attempt != launches[k].attempt {
      DistinctAttempts(w.starts, job, i, k);
    }
    forall a | a in AttemptsOf(launches) ensures 0 <= a < w.jobs[job].maxRetries + 1 {
      var i :| 0 <= i < |launches| && launches[i].attempt == a;
      assert launches[i] in w.starts;
      var k :| 0 <= k < |w.starts| && w.starts[k] == launches[i];
      assert StartSound(w.starts[k], w.jobs) && RowSound(w.jobs[job]);
    }
    DistinctBelow(AttemptsOf(launches), w.jobs[job].maxRetries + 1);
  }

  /** At any moment of any run, at most one token speaks for a job. */
  lemma OneTokenSpeaks(nodes: seq<Node>, quotas: map<nat, Quota>, evs: seq<Event>, at: int, i: nat, k: nat)
    requires var ts := Run(Start(nodes, quotas), evs).tokens;
      i < |ts| && k < |ts| && ts[i].job == ts[k].job && T.Live(ts[i], at) && T.Live(ts[k], at)
    ensures i == k
  {
    hide Run;
    RunKeepsSound(nodes, quotas, evs);
  }
}
