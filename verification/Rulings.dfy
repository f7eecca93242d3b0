/**
 Whether a retry a job was entitled to is lost, however many executors rule on failures: a
 refusal is recorded against a job only for the failure it has, unless it is ruled on after
 another executor has already given it its retry.
 */
module Rulings {
  import opened Prelude
  import opened Placement
  import opened Quota
  import opened JobLifecycle
  import opened Jobs
  import opened JobRuns

  /** A standing refusal is of a failed job, and is what that failure deserves. */
  predicate Just(row: Job) {
    row.ruling.Some? ==> row.state.FAILED? && row.ruling.value == DecideRetry(row) != RETRY
  }

  ghost predicate AllJust(w: World) {
    forall j :: 0 <= j < |w.jobs| ==> Just(w.jobs[j])
  }

  /** A ruling finds its row no longer failed, and nothing recorded to stop it. */
  predicate RulesUnfailed(w: World, ev: Event) {
    && WriteOf(w, ev).Some? && WriteOf(w, ev).value.change.Ruled?
    && !w.jobs[WriteOf(w, ev).value.job].state.FAILED? && w.jobs[WriteOf(w, ev).value.job].ruling.None?
  }

  lemma ChangeKeepsJust(row: Job, c: Change)
    requires Just(row)
    ensures Just(Apply(row, c)) <==> !(c.Ruled? && !row.state.FAILED? && row.ruling.None?)
  {
  }

  lemma NewRowJust(project: nat, request: Request, priority: Priority, maxRetries: nat, at: int)
    ensures Just(Submitted(project, request, priority, maxRetries, at))
  {
  }

  lemma StepKeepsJustIff(w: World, ev: Event)
    requires AllJust(w)
    ensures AllJust(Step(w, ev)) <==> !RulesUnfailed(w, ev)
  {
    hide JobsAfter, WriteOf, Apply, ClusterAfter, TokensAfter, ExecsAfter, StartsAfter, Just;
    var jobs := JobsAfter(w, ev);
    forall j | 0 <= j < |jobs| ensures Just(jobs[j]) <==> !(RulesUnfailed(w, ev) && WriteOf(w, ev).value.job == j) {
      if j >= |w.jobs| {
        NewRows(w, ev, j);
        NewRowJust(ev.project, ev.request, ev.priority, ev.maxRetries, ev.at);
      } else {
        RowAfter(w, ev, j);
        if WriteOf(w, ev).Some? && WriteOf(w, ev).value.job == j {
          ChangeKeepsJust(w.jobs[j], WriteOf(w, ev).value.change);
        }
      }
    }
    if RulesUnfailed(w, ev) {
      RowAfter(w, ev, WriteOf(w, ev).value.job);
    }
  }

  ghost predicate JustThroughout(w: World, evs: seq<Event>) {
    AllJust(Run(w, evs)) && (evs == [] || JustThroughout(w, evs[..|evs| - 1]))
  }

  ghost predicate NeverRulesUnfailed(w: World, evs: seq<Event>) {
    evs == [] || (NeverRulesUnfailed(w, evs[..|evs| - 1]) && !RulesUnfailed(Run(w, evs[..|evs| - 1]), evs[|evs| - 1]))
  }

  /**
   Over every run, with any number of executors and crashes: every refusal on record at any
   point is deserved exactly when no job was ruled on that had stopped being failed.
   */
  lemma {:induction false} RefusalsAreDeservedIff(nodes: seq<Node>, quotas: map<nat, Quota>, evs: seq<Event>)
    ensures JustThroughout(Start(nodes, quotas), evs) <==> NeverRulesUnfailed(Start(nodes, quotas), evs)
  {
    hide Step, RulesUnfailed, AllJust;
    if evs != [] {
      var before := evs[..|evs| - 1];
      RefusalsAreDeservedIff(nodes, quotas, before);
      if AllJust(Run(Start(nodes, quotas), before)) {
        StepKeepsJustIff(Run(Start(nodes, quotas), before), evs[|evs| - 1]);
      }
    } else {
      StartJust(nodes, quotas);
    }
  }

  lemma StartJust(nodes: seq<Node>, quotas: map<nat, Quota>)
    ensures AllJust(Start(nodes, quotas))
  {
  }

  /** On such a run no retry is lost: a failure that may pass, with budget left, is still to be ruled on. */
  lemma NoRetryIsLost(nodes: seq<Node>, quotas: map<nat, Quota>, evs: seq<Event>, j: nat)
    requires NeverRulesUnfailed(Start(nodes, quotas), evs)
    requires var w := Run(Start(nodes, quotas), evs); j < |w.jobs| && w.jobs[j].state.FAILED?
    ensures var row := Run(Start(nodes, quotas), evs).jobs[j];
      AwaitsRuling(row) || !row.transient || row.attempt >= row.maxRetries
  {
    hide Run;
    RefusalsAreDeservedIff(nodes, quotas, evs);
    assert Just(Run(Start(nodes, quotas), evs).jobs[j]);
  }
}
