/**
 Which Kubernetes Job a launch is recorded under, however many executors take part. The name is
 made when the launch begins, and recorded with whatever attempt the row has reached when the
 launch is marked: another executor may have taken the job an attempt further in between.
 */
module LaunchNames {
  import opened Prelude
  import opened Placement
  import opened Quota
  import opened JobLifecycle
  import opened Jobs
  import opened JobRuns
  import N = Names

  /** What is recorded of a row, if anything, is the Job of its attempt. */
  predicate Named(row: Job) {
    row.k8sJob.Some? ==> row.k8sJob.value == row.attempt
  }

  ghost predicate RowsNamed(w: World) {
    forall j :: 0 <= j < |w.jobs| ==> Named(w.jobs[j])
  }

  ghost predicate StartsOwn(w: World) {
    forall i :: 0 <= i < |w.starts| ==> w.starts[i].named == w.starts[i].attempt
  }

  /** A launch is marked. */
  predicate MarksAs(w: World, ev: Event, j: nat, named: nat) {
    j < |w.jobs| && w.jobs[j].state.SCHEDULING? && WriteOf(w, ev) == Some(Write(j, Launched(named)))
  }

  /** A launch is marked on a row that has gone on to another attempt. */
  predicate Misnames(w: World, ev: Event) {
    && WriteOf(w, ev).Some? && WriteOf(w, ev).value.change.Launched?
    && MarksAs(w, ev, WriteOf(w, ev).value.job, WriteOf(w, ev).value.change.named)
    && WriteOf(w, ev).value.change.named != w.jobs[WriteOf(w, ev).value.job].attempt
  }

  /** A launch of the job is marked under a name recorded for it before. */
  ghost predicate RepeatsName(w: World, ev: Event, j: nat) {
    exists s :: s in LaunchesOf(w.starts, j) && MarksAs(w, ev, j, s.named)
  }

  // ------------------------------------------------------------------- one step

  lemma ChangeKeepsNamed(row: Job, c: Change)
    requires Named(row)
    ensures Named(Apply(row, c)) <==> !(c.Launched? && row.state.SCHEDULING? && c.named != row.attempt)
  {
  }

  lemma NewRowNamed(project: nat, request: Request, priority: Priority, maxRetries: nat, at: int)
    ensures Named(Submitted(project, request, priority, maxRetries, at))
  {
  }

  lemma StepKeepsNamedIff(w: World, ev: Event)
    requires RowsNamed(w)
    ensures RowsNamed(Step(w, ev)) <==> !Misnames(w, ev)
  {
    hide JobsAfter, WriteOf, Apply, ClusterAfter, TokensAfter, ExecsAfter, StartsAfter, Named;
    var jobs := JobsAfter(w, ev);
    forall j | 0 <= j < |jobs| ensures Named(jobs[j]) <==> !(Misnames(w, ev) && WriteOf(w, ev).value.job == j) {
      if j >= |w.jobs| {
        NewRows(w, ev, j);
        NewRowNamed(ev.project, ev.request, ev.priority, ev.maxRetries, ev.at);
      } else {
        RowAfter(w, ev, j);
        if WriteOf(w, ev).Some? && WriteOf(w, ev).value.job == j {
          ChangeKeepsNamed(w.jobs[j], WriteOf(w, ev).value.change);
        }
      }
    }
    if Misnames(w, ev) {
      RowAfter(w, ev, WriteOf(w, ev).value.job);
    }
  }

  /** A step records a launch exactly when it marks one. */
  lemma StartsGrow(w: World, ev: Event)
    ensures StartsAfter(w, ev) == w.starts
            || (WriteOf(w, ev).Some? && WriteOf(w, ev).value.change.Launched?
                && MarksAs(w, ev, WriteOf(w, ev).value.job, WriteOf(w, ev).value.change.named))
    ensures forall j: nat, named: nat :: MarksAs(w, ev, j, named) ==>
      StartsAfter(w, ev) == w.starts + [Recorded(j, w.jobs[j].attempt, named)]
  {
    hide WriteOf;
  }

  lemma StepKeepsOwnIff(w: World, ev: Event)
    ensures StartsOwn(Step(w, ev)) <==> StartsOwn(w) && !Misnames(w, ev)
  {
    hide WriteOf, StartsAfter, JobsAfter, ClusterAfter, TokensAfter, ExecsAfter, MarksAs;
    StartsGrow(w, ev);
    var starts := StartsAfter(w, ev);
    if starts != w.starts {
      assert forall i :: 0 <= i < |w.starts| ==> starts[i] == w.starts[i];
      assert starts[|w.starts|].named == WriteOf(w, ev).value.change.named;
    }
  }

  // ------------------------------------------------------------------ whole runs

  ghost predicate NeverMisnames(w: World, evs: seq<Event>) {
    evs == [] || (NeverMisnames(w, evs[..|evs| - 1]) && !Misnames(Run(w, evs[..|evs| - 1]), evs[|evs| - 1]))
  }

  ghost predicate NamedThroughout(w: World, evs: seq<Event>) {
    RowsNamed(Run(w, evs)) && (evs == [] || NamedThroughout(w, evs[..|evs| - 1]))
  }

  /**
   Over every run, with any number of executors and crashes: every launch is recorded under the
   Job of its own attempt, and every row names the Job of the attempt it is at, exactly when no
   launch is marked on a row that has gone on to another attempt.
   */
  lemma {:induction false} NamesAreOwnIff(nodes: seq<Node>, quotas: map<nat, Quota>, evs: seq<Event>)
    ensures NamedThroughout(Start(nodes, quotas), evs) <==> NeverMisnames(Start(nodes, quotas), evs)
    ensures StartsOwn(Run(Start(nodes, quotas), evs)) <==> NeverMisnames(Start(nodes, quotas), evs)
  {
    hide Step, Misnames, RowsNamed, StartsOwn;
    if evs != [] {
      var before := evs[..|evs| - 1];
      NamesAreOwnIff(nodes, quotas, before);
      StepKeepsOwnIff(Run(Start(nodes, quotas), before), evs[|evs| - 1]);
      if RowsNamed(Run(Start(nodes, quotas), before)) {
        StepKeepsNamedIff(Run(Start(nodes, quotas), before), evs[|evs| - 1]);
      }
    } else {
      NothingNamed(nodes, quotas);
    }
  }

  lemma NothingNamed(nodes: seq<Node>, quotas: map<nat, Quota>)
    ensures RowsNamed(Start(nodes, quotas)) && StartsOwn(Start(nodes, quotas))
  {
  }

  ghost predicate RepeatedOn(w: World, evs: seq<Event>, j: nat) {
    evs != [] && (RepeatedOn(w, evs[..|evs| - 1], j) || RepeatsName(Run(w, evs[..|evs| - 1]), evs[|evs| - 1], j))
  }

  /** Two of the launches bear the same Kubernetes Job name. */
  ghost predicate NamesRepeat(launches: seq<Recorded>, id: string, name: string) {
    exists i, k :: 0 <= i < k < |launches| && SameName(launches[i], launches[k], id, name)
  }

  predicate SameName(s: Recorded, t: Recorded, id: string, name: string) {
    N.JobName(id, name, s.named) == N.JobName(id, name, t.named)
  }

  lemma SameNameIff(s: Recorded, t: Recorded, id: string, name: string)
    ensures SameName(s, t, id, name) <==> s.named == t.named
  {
    hide N.JobName;
    if SameName(s, t, id, name) {
      N.JobNamesDistinct(id, name, s.named, t.named);
    }
  }

  /** The last launch repeats a name, or the ones before it already did. */
  lemma RepeatAtTheEnd(launches: seq<Recorded>, s: Recorded, id: string, name: string)
    ensures NamesRepeat(launches + [s], id, name)
      <==> NamesRepeat(launches, id, name) || exists t :: t in launches && t.named == s.named
  {
    hide SameName;
    var longer, n := launches + [s], |launches|;
    if NamesRepeat(launches, id, name) {
      var i, k :| 0 <= i < k < n && SameName(launches[i], launches[k], id, name);
      assert SameName(longer[i], longer[k], id, name);
    }
    if t :| t in launches && t.named == s.named {
      var i :| 0 <= i < n && launches[i] == t;
      SameNameIff(longer[i], longer[n], id, name);
    }
    if NamesRepeat(longer, id, name) {
      var i, k :| 0 <= i < k < |longer| && SameName(longer[i], longer[k], id, name);
      if k < n {
        assert SameName(launches[i], launches[k], id, name);
      } else {
        SameNameIff(longer[i], longer[n], id, name);
        assert launches[i] in launches;
      }
    }
  }

  lemma LaunchesGrow(starts: seq<Recorded>, s: Recorded, j: nat)
    ensures LaunchesOf(starts + [s], j) == LaunchesOf(starts, j) + if s.job == j then [s] else []
  {
    assert (starts + [s])[..|starts|] == starts;
  }

  lemma StepRepeats(w: World, ev: Event, j: nat, id: string, name: string)
    ensures NamesRepeat(LaunchesOf(StartsAfter(w, ev), j), id, name)
      <==> NamesRepeat(LaunchesOf(w.starts, j), id, name) || RepeatsName(w, ev, j)
  {
    hide WriteOf, StartsAfter, NamesRepeat, LaunchesOf;
    StartsGrow(w, ev);
    if StartsAfter(w, ev) != w.starts {
      var k, named := WriteOf(w, ev).value.job, WriteOf(w, ev).value.change.named;
      var s := Recorded(k, w.jobs[k].attempt, named);
      LaunchesGrow(w.starts, s, j);
      RepeatAtTheEnd(LaunchesOf(w.starts, j), s, id, name);
      assert LaunchesOf(w.starts, j) + [] == LaunchesOf(w.starts, j);
    } else {
      assert forall named: nat :: !MarksAs(w, ev, j, named);
    }
  }

  /**
   Over every run, with any number of executors and crashes: two launches of a job are recorded
   under one Kubernetes Job name exactly when a launch of it is marked under a name already
   recorded.
   */
  lemma {:induction false} NamesRepeatIff(nodes: seq<Node>, quotas: map<nat, Quota>, evs: seq<Event>, job: nat,
                                          id: string, name: string)
    ensures NamesRepeat(LaunchesOf(Run(Start(nodes, quotas), evs).starts, job), id, name)
      <==> RepeatedOn(Start(nodes, quotas), evs, job)
  {
    hide NamesRepeat, LaunchesOf, RepeatsName, JobsAfter, StartsAfter, ClusterAfter, TokensAfter, ExecsAfter;
    if evs != [] {
      NamesRepeatIff(nodes, quotas, evs[..|evs| - 1], job, id, name);
      StepRepeats(Run(Start(nodes, quotas), evs[..|evs| - 1]), evs[|evs| - 1], job, id, name);
    } else {
      NoLaunches(nodes, quotas, job, id, name);
    }
  }

  lemma NoLaunches(nodes: seq<Node>, quotas: map<nat, Quota>, job: nat, id: string, name: string)
    ensures !NamesRepeat(LaunchesOf(Start(nodes, quotas).starts, job), id, name)
  {
  }

  /** No two launches of a job share a name on a run that marks none on a later attempt. */
  lemma LaunchesHaveDistinctNames(nodes: seq<Node>, quotas: map<nat, Quota>, evs: seq<Event>, job: nat,
                                  id: string, name: string)
    requires job < |Run(Start(nodes, quotas), evs).jobs| && NeverMisnames(Start(nodes, quotas), evs)
    ensures !NamesRepeat(LaunchesOf(Run(Start(nodes, quotas), evs).starts, job), id, name)
  {
    hide Run, LaunchesOf, SameName;
    NamesAreOwnIff(nodes, quotas, evs);
    LaunchesAreBudgeted(nodes, quotas, evs, job);
    var w := Run(Start(nodes, quotas), evs);
    var launches := LaunchesOf(w.starts, job);
    forall i, k | 0 <= i < k < |launches| ensures !SameName(launches[i], launches[k], id, name) {
      OwnName(w, launches[i]);
      OwnName(w, launches[k]);
      SameNameIff(launches[i], launches[k], id, name);
    }
  }

  lemma OwnName(w: World, s: Recorded)
    requires StartsOwn(w) && s in w.starts
    ensures s.named == s.attempt
  {
  }
}
