/**
 What is promised of nodes and of projects over runs of admissions, completions, requeues and
 retries, however many executors take part: the one step that can promise too much, and the
 runs on which none does.
 */
module Capacity {
  import opened Prelude
  import opened Placement
  import opened Quota
  import opened JobLifecycle
  import opened Jobs
  import opened JobRuns
  import O = OneExecutor

  function OfferOf(n: Node, m: Measure): int {
    match m
    case Cpus => Offered(n).cpu
    case Bytes => Offered(n).memory
    case Gpus => Offered(n).gpu
    case Jobs => 0
  }

  /** Nothing held, or no more than is offered. */
  predicate Holds(load: int, offer: int) {
    load == 0 || load <= offer
  }

  ghost predicate NodeHolds(w: World, n: Node) {
    && Holds(Load(w, n.name, Cpus), OfferOf(n, Cpus))
    && Holds(Load(w, n.name, Bytes), OfferOf(n, Bytes))
    && Holds(Load(w, n.name, Gpus), OfferOf(n, Gpus))
  }

  ghost predicate NodesHold(w: World) {
    UniqueNames(w.nodes) && forall i :: 0 <= i < |w.nodes| ==> NodeHolds(w, w.nodes[i])
  }

  function Admitted(w: World, project: nat, m: Measure): int {
    Total(w.jobs, AdmittedTo(project, m))
  }

  ghost predicate WithinQuota(w: World, project: nat, m: Measure) {
    LimitOf(QuotaOf(w, project), m) != 0 ==> Admitted(w, project, m) <= LimitOf(QuotaOf(w, project), m)
  }

  ghost predicate QuotasHold(w: World) {
    forall project, m :: WithinQuota(w, project, m)
  }

  // ------------------------------------------------- what a step adds, exactly

  predicate Binds(w: World, ev: Event) {
    WriteOf(w, ev).Some? && WriteOf(w, ev).value.change.Bound?
  }

  /** A job is bound while its row waits in the queue, as it may be by an executor that read it earlier. */
  predicate BindsQueued(w: World, ev: Event) {
    Binds(w, ev) && w.jobs[WriteOf(w, ev).value.job].state.QUEUED?
  }

  /** A claim takes a queued job that still holds a node. */
  predicate ClaimsBooked(w: World, ev: Event) {
    && WriteOf(w, ev).Some? && WriteOf(w, ev).value.change.Claimed?
    && w.jobs[WriteOf(w, ev).value.job].state.QUEUED? && w.jobs[WriteOf(w, ev).value.job].node.Some?
  }

  /** Binding, and claiming what is already bound, are all that can add to what a row holds. */
  lemma OthersAddNothing(row: Job, c: Change, node: nat, project: nat, m: Measure)
    requires RowSound(row) && !c.Bound? && !(c.Claimed? && row.state.QUEUED? && row.node.Some?)
    ensures HeldOn(node, m)(Apply(row, c)) <= HeldOn(node, m)(row)
    ensures AdmittedTo(project, m)(Apply(row, c)) <= AdmittedTo(project, m)(row)
  {
  }

  /** Whatever state a row is in, binding it adds at most its request, and only where it occupies. */
  lemma BindingAdds(row: Job, to: nat, node: nat, project: nat, m: Measure)
    ensures HeldOn(node, m)(Apply(row, Bound(to))) <= HeldOn(node, m)(row) + (if node == to then Wanted(row.request, m) else 0)
    ensures AdmittedTo(project, m)(Apply(row, Bound(to)))
            == if Occupying(row.state) && project == row.project then Wanted(row.request, m) else 0
  {
  }

  lemma BookedClaimAdds(row: Job, node: nat, project: nat, m: Measure)
    requires row.state.QUEUED? && row.node.Some?
    ensures HeldOn(node, m)(Apply(row, Claimed)) == HeldOn(node, m)(row) + if row.node.value == node then Wanted(row.request, m) else 0
    ensures AdmittedTo(project, m)(Apply(row, Claimed))
            == AdmittedTo(project, m)(row) + if row.project == project then Wanted(row.request, m) else 0
  {
  }

  lemma NewRowsHoldNothing(w: World, ev: Event, f: Job -> int)
    requires ev.Submit? && f(Submitted(ev.project, ev.request, ev.priority, ev.maxRetries, ev.at)) == 0
    ensures Total(JobsAfter(w, ev), f) == Total(w.jobs, f)
  {
    var jobs := JobsAfter(w, ev);
    assert jobs[..|jobs| - 1] == w.jobs;
  }

  lemma WrittenTotal(w: World, ev: Event, f: Job -> int)
    requires !ev.Submit?
    ensures WriteOf(w, ev).None? ==> Total(JobsAfter(w, ev), f) == Total(w.jobs, f)
    ensures WriteOf(w, ev).Some? ==>
      var j, c := WriteOf(w, ev).value.job, WriteOf(w, ev).value.change;
      Total(JobsAfter(w, ev), f) == Total(w.jobs, f) - f(w.jobs[j]) + f(Apply(w.jobs[j], c))
  {
    hide WriteOf, Apply;
    if WriteOf(w, ev).Some? {
      TotalUpdate(w.jobs, WriteOf(w, ev).value.job, Apply(w.jobs[WriteOf(w, ev).value.job], WriteOf(w, ev).value.change), f);
    }
  }

  lemma NothingElseAdds(w: World, ev: Event, node: nat, project: nat, m: Measure)
    requires RowsSound(w.jobs) && !Binds(w, ev) && !ClaimsBooked(w, ev)
    ensures Total(JobsAfter(w, ev), HeldOn(node, m)) <= Total(w.jobs, HeldOn(node, m))
    ensures Total(JobsAfter(w, ev), AdmittedTo(project, m)) <= Total(w.jobs, AdmittedTo(project, m))
  {
    hide JobsAfter, WriteOf, Apply, RowSound;
    if ev.Submit? {
      NewRowsHoldNothing(w, ev, HeldOn(node, m));
      NewRowsHoldNothing(w, ev, AdmittedTo(project, m));
    } else {
      WrittenTotal(w, ev, HeldOn(node, m));
      WrittenTotal(w, ev, AdmittedTo(project, m));
      if WriteOf(w, ev).Some? {
        OthersAddNothing(w.jobs[WriteOf(w, ev).value.job], WriteOf(w, ev).value.change, node, project, m);
      }
    }
  }

  /** A claim of a booked job adds its whole request to its node and its project, past both gates. */
  lemma ClaimingBookedAdds(w: World, ev: Event, node: nat, project: nat, m: Measure)
    requires ClaimsBooked(w, ev)
    ensures var row := w.jobs[WriteOf(w, ev).value.job];
      && Total(JobsAfter(w, ev), HeldOn(node, m))
         == Total(w.jobs, HeldOn(node, m)) + (if row.node.value == node then Wanted(row.request, m) else 0)
      && Total(JobsAfter(w, ev), AdmittedTo(project, m))
         == Total(w.jobs, AdmittedTo(project, m)) + (if row.project == project then Wanted(row.request, m) else 0)
  {
    hide JobsAfter, WriteOf, Apply, HeldOn, AdmittedTo;
    SubmitWritesNothing(w, ev);
    WrittenTotal(w, ev, HeldOn(node, m));
    WrittenTotal(w, ev, AdmittedTo(project, m));
    BookedClaimAdds(w.jobs[WriteOf(w, ev).value.job], node, project, m);
  }

  lemma SubmitWritesNothing(w: World, ev: Event)
    ensures ev.Submit? || ev.Discover? || ev.SetQuota? ==> WriteOf(w, ev).None?
  {
  }

  lemma {:induction false} TotalsAreNonNegative(jobs: seq<Job>, node: nat, project: nat, m: Measure)
    ensures Total(jobs, HeldOn(node, m)) >= 0 && Total(jobs, AdmittedTo(project, m)) >= 0
  {
    if jobs != [] {
      TotalsAreNonNegative(jobs[..|jobs| - 1], node, project, m);
    }
  }

  // ------------------------------------------------------------------- a binding

  /** What is bound is what passed both gates in that same step, whoever binds it. */
  lemma BindingIsDecided(w: World, ev: Event)
    requires Binds(w, ev)
    ensures ev.Handle?
    ensures Decided(w, WriteOf(w, ev).value.job) == Some(WriteOf(w, ev).value.change.to)
  {
    hide Decided, Shown, NextQueued;
  }

  lemma BoundTotals(w: World, ev: Event, node: nat, project: nat, m: Measure)
    requires Binds(w, ev)
    ensures var row, to := w.jobs[WriteOf(w, ev).value.job], WriteOf(w, ev).value.change.to;
      && Total(JobsAfter(w, ev), HeldOn(node, m))
         <= Total(w.jobs, HeldOn(node, m)) + (if node == to then Wanted(row.request, m) else 0)
      && Total(JobsAfter(w, ev), AdmittedTo(project, m))
         == Total(w.jobs, AdmittedTo(project, m)) - AdmittedTo(project, m)(row)
            + (if Occupying(row.state) && project == row.project then Wanted(row.request, m) else 0)
  {
    hide JobsAfter, WriteOf, Apply, HeldOn, AdmittedTo;
    BindingIsDecided(w, ev);
    WrittenTotal(w, ev, HeldOn(node, m));
    WrittenTotal(w, ev, AdmittedTo(project, m));
    BindingAdds(w.jobs[WriteOf(w, ev).value.job], WriteOf(w, ev).value.change.to, node, project, m);
  }

  /** The node decided on fits the request on top of what it already holds. */
  lemma DecidedHasRoom(w: World, j: nat, i: nat)
    requires j < |w.jobs| && i < |w.nodes| && UniqueNames(w.nodes)
    requires Decided(w, j) == Some(w.nodes[i].name)
    ensures var r, n := w.jobs[j].request, w.nodes[i];
      && Load(w, n.name, Cpus) + r.cpu <= OfferOf(n, Cpus)
      && (r.memory > 0 ==> Load(w, n.name, Bytes) + r.memory <= OfferOf(n, Bytes))
      && (r.gpu > 0 ==> Load(w, n.name, Gpus) + r.gpu <= OfferOf(n, Gpus))
  {
    hide PlaceJob, Load, FitsOn, CheckQuota;
    var r, view := w.jobs[j].request, ClusterView(w);
    ChoosesTheBest(r, view);
    var winner := PlaceJob(r, view).node.value;
    var k :| 0 <= k < |view| && view[k] == winner;
    assert view[k].name == w.nodes[k].name;
    assert k == i;
    FittingHasRoom(view[i], r);
  }

  /** Where the job bound still fits, and where it never went, the node holds. */
  lemma BindingKeepsNode(w: World, ev: Event, i: nat)
    requires Binds(w, ev) && NodesHold(w) && i < |w.nodes|
    ensures NodeHolds(Step(w, ev), w.nodes[i])
  {
    hide JobsAfter, WriteOf, OfferOf, Decided, ClusterAfter, TokensAfter, ExecsAfter, StartsAfter, HeldOn, AdmittedTo;
    var n := w.nodes[i];
    BindingIsDecided(w, ev);
    BoundTotals(w, ev, n.name, 0, Cpus);
    BoundTotals(w, ev, n.name, 0, Bytes);
    BoundTotals(w, ev, n.name, 0, Gpus);
    LoadsAreNonNegative(JobsAfter(w, ev), n.name);
    if WriteOf(w, ev).value.change.to == n.name {
      DecidedHasRoom(w, WriteOf(w, ev).value.job, i);
    }
    assert NodeHolds(w, n);
  }

  lemma LoadsAreNonNegative(jobs: seq<Job>, node: nat)
    ensures Total(jobs, HeldOn(node, Cpus)) >= 0 && Total(jobs, HeldOn(node, Bytes)) >= 0 && Total(jobs, HeldOn(node, Gpus)) >= 0
  {
    TotalsAreNonNegative(jobs, node, 0, Cpus);
    TotalsAreNonNegative(jobs, node, 0, Bytes);
    TotalsAreNonNegative(jobs, node, 0, Gpus);
  }

  lemma OtherKeepsNode(w: World, ev: Event, i: nat)
    requires RowsSound(w.jobs) && !Binds(w, ev) && !ClaimsBooked(w, ev) && NodesHold(w) && i < |w.nodes|
    ensures NodeHolds(Step(w, ev), w.nodes[i])
  {
    hide JobsAfter, WriteOf, Binds, ClaimsBooked, OfferOf, ClusterAfter, TokensAfter, ExecsAfter, StartsAfter, HeldOn,
         AdmittedTo;
    var n := w.nodes[i];
    NothingElseAdds(w, ev, n.name, 0, Cpus);
    NothingElseAdds(w, ev, n.name, 0, Bytes);
    NothingElseAdds(w, ev, n.name, 0, Gpus);
    LoadsAreNonNegative(JobsAfter(w, ev), n.name);
    assert NodeHolds(w, n);
  }

  // ------------------------------------------------------------------- the quota

  /** What a project was admitted to is part of what it is charged for. */
  lemma AdmittedIsCharged(w: World, j: nat, m: Measure)
    requires j < |w.jobs| && Occupying(w.jobs[j].state)
    ensures var row := w.jobs[j];
      Admitted(w, row.project, m) - AdmittedTo(row.project, m)(row) <= UsageWithout(w, row)(m)
  {
    var p := w.jobs[j].project;
    TotalIncludes(w.jobs, j, AdmittedTo(p, m), HeldBy(p, m));
  }

  lemma DecidedIsAffordable(w: World, j: nat, m: Measure)
    requires j < |w.jobs| && Decided(w, j).Some?
    ensures var row := w.jobs[j];
      LimitOf(QuotaOf(w, row.project), m) == 0 || Wanted(row.request, m) == 0
      || UsageWithout(w, row)(m) + Wanted(row.request, m) <= LimitOf(QuotaOf(w, row.project), m)
  {
    hide PlaceJob, CheckQuota, ClusterView;
    var row := w.jobs[j];
    AffordedExactly(row.request, QuotaOf(w, row.project), UsageWithout(w, row));
  }

  /**
   No admission raises what a project holds of a limited resource above the limit in force; the
   only other step that raises it at all is the claim of a job that still holds a node.
   */
  lemma RaisedOnlyWithinLimit(w: World, ev: Event, project: nat, m: Measure)
    requires RowsSound(w.jobs)
    ensures Total(JobsAfter(w, ev), AdmittedTo(project, m)) > Admitted(w, project, m) ==>
      || ClaimsBooked(w, ev)
      || (Binds(w, ev)
          && (LimitOf(QuotaOf(w, project), m) == 0
              || Total(JobsAfter(w, ev), AdmittedTo(project, m)) <= LimitOf(QuotaOf(w, project), m)))
  {
    hide JobsAfter, WriteOf, Decided, HeldOn, QuotaOf, UsageWithout;
    if Binds(w, ev) {
      var j := WriteOf(w, ev).value.job;
      BindingIsDecided(w, ev);
      BoundTotals(w, ev, 0, project, m);
      if project == w.jobs[j].project && Occupying(w.jobs[j].state) {
        AdmittedIsCharged(w, j, m);
        DecidedIsAffordable(w, j, m);
      }
    } else if !ClaimsBooked(w, ev) {
      NothingElseAdds(w, ev, 0, project, m);
    }
  }

  // -------------------------------------------------------------------- whole runs

  /** Discovery that takes nothing away: nodes keep their places and offer no less. */
  ghost predicate NoShrinkage(before: seq<Node>, after: seq<Node>) {
    && |before| <= |after| && UniqueNames(after)
    && forall i :: 0 <= i < |before| ==> Roomier(before[i], after[i])
  }

  predicate Roomier(a: Node, b: Node) {
    b.name == a.name && Offered(a).cpu <= Offered(b).cpu && Offered(a).memory <= Offered(b).memory
    && Offered(a).gpu <= Offered(b).gpu
  }

  predicate Looser(a: Quota, b: Quota) {
    && (b.jobLimit == 0 || (a.jobLimit != 0 && a.jobLimit <= b.jobLimit))
    && (b.gpuLimit == 0 || (a.gpuLimit != 0 && a.gpuLimit <= b.gpuLimit))
    && (b.cpuLimit == 0 || (a.cpuLimit != 0 && a.cpuLimit <= b.cpuLimit))
    && (b.memoryLimit == 0 || (a.memoryLimit != 0 && a.memoryLimit <= b.memoryLimit))
  }

  /** Nothing is taken away from under the jobs already admitted. */
  ghost predicate Gentle(w: World, ev: Event) {
    && (ev.Discover? ==> NoShrinkage(w.nodes, ev.nodes))
    && (ev.SetQuota? ==> Looser(QuotaOf(w, ev.project), ev.quota))
  }

  ghost predicate AllGentle(w: World, evs: seq<Event>)
    decreases |evs|
  {
    evs == [] || (AllGentle(w, evs[..|evs| - 1]) && Gentle(Run(w, evs[..|evs| - 1]), evs[|evs| - 1]))
  }

  /** Jobs hold only nodes that are registered. */
  ghost predicate NodesKnown(w: World) {
    forall j :: 0 <= j < |w.jobs| && w.jobs[j].node.Some? ==> exists i :: 0 <= i < |w.nodes| && w.nodes[i].name == w.jobs[j].node.value
  }

  lemma {:induction false} UnknownHoldsNothing(jobs: seq<Job>, node: nat, m: Measure)
    requires forall j :: 0 <= j < |jobs| ==> jobs[j].node != Some(node)
    ensures Total(jobs, HeldOn(node, m)) == 0
  {
    if jobs != [] {
      UnknownHoldsNothing(jobs[..|jobs| - 1], node, m);
    }
  }

  lemma DecidedIsKnown(w: World, j: nat)
    requires j < |w.jobs| && Decided(w, j).Some?
    ensures exists i :: 0 <= i < |w.nodes| && w.nodes[i].name == Decided(w, j).value
  {
    hide PlaceJob, Load, FitsOn, CheckQuota;
    var r, view := w.jobs[j].request, ClusterView(w);
    ChoosesTheBest(r, view);
    var k :| 0 <= k < |view| && view[k] == PlaceJob(r, view).node.value;
    assert w.nodes[k].name == view[k].name;
  }

  lemma OnlyBindingSetsNode(row: Job, c: Change)
    requires !c.Bound?
    ensures Apply(row, c).node == row.node || Apply(row, c).node == None
  {
  }

  lemma StepKeepsKnown(w: World, ev: Event)
    requires Gentle(w, ev) && NodesKnown(w)
    ensures NodesKnown(Step(w, ev))
  {
    hide JobsAfter, WriteOf, Decided, Apply, ClusterAfter, TokensAfter, ExecsAfter, StartsAfter, UniqueNames, Looser;
    var u := Step(w, ev);
    assert forall i :: 0 <= i < |w.nodes| ==> i < |u.nodes| && u.nodes[i].name == w.nodes[i].name;
    forall j | 0 <= j < |u.jobs| && u.jobs[j].node.Some?
      ensures exists i :: 0 <= i < |w.nodes| && w.nodes[i].name == u.jobs[j].node.value
    {
      NodeOfRow(w, ev, j);
    }
  }

  lemma NodeOfRow(w: World, ev: Event, j: nat)
    requires NodesKnown(w)
    requires j < |JobsAfter(w, ev)| && JobsAfter(w, ev)[j].node.Some?
    ensures exists i :: 0 <= i < |w.nodes| && w.nodes[i].name == JobsAfter(w, ev)[j].node.value
  {
    hide JobsAfter, WriteOf, Decided, Apply;
    if j >= |w.jobs| {
      NewRows(w, ev, j);
    } else {
      RowAfter(w, ev, j);
      var write := WriteOf(w, ev);
      if write.Some? && write.value.job == j {
        if write.value.change.Bound? {
          BindingIsDecided(w, ev);
          DecidedIsKnown(w, j);
          BoundNode(w.jobs[j], write.value.change.to);
        } else {
          OnlyBindingSetsNode(w.jobs[j], write.value.change);
        }
      }
    }
  }

  lemma BoundNode(row: Job, to: nat)
    ensures Apply(row, Bound(to)).node == Some(to)
  {
  }

  lemma StepKeepsNodes(w: World, ev: Event)
    requires RowsSound(w.jobs) && Gentle(w, ev) && NodesKnown(w) && NodesHold(w) && !ClaimsBooked(w, ev)
    ensures NodesHold(Step(w, ev))
  {
    hide JobsAfter, WriteOf, RowsSound, ClusterAfter, TokensAfter, ExecsAfter, StartsAfter, NodeHolds, Looser, NodesKnown,
         Binds, ClaimsBooked;
    var u := Step(w, ev);
    forall i | 0 <= i < |u.nodes| ensures NodeHolds(u, u.nodes[i]) {
      if i < |w.nodes| {
        if Binds(w, ev) { BindingKeepsNode(w, ev, i); } else { OtherKeepsNode(w, ev, i); }
        if ev.Discover? {
          RoomierHolds(u, w.nodes[i], u.nodes[i]);
        }
      } else {
        NewNodeHolds(w, ev, i);
      }
    }
  }

  lemma RoomierHolds(u: World, a: Node, b: Node)
    requires NodeHolds(u, a) && Roomier(a, b)
    ensures NodeHolds(u, b)
  {
    hide Load;
  }

  lemma NewNodeHolds(w: World, ev: Event, i: nat)
    requires Gentle(w, ev) && NodesKnown(w) && ev.Discover? && |w.nodes| <= i < |ev.nodes|
    ensures NodeHolds(Step(w, ev), ev.nodes[i])
  {
    hide ClusterAfter, TokensAfter, ExecsAfter, StartsAfter, Looser, HeldOn, OfferOf;
    var name := ev.nodes[i].name;
    forall j | 0 <= j < |w.jobs| ensures w.jobs[j].node != Some(name) {
      if w.jobs[j].node.Some? {
        var k :| 0 <= k < |w.nodes| && w.nodes[k].name == w.jobs[j].node.value;
        assert Roomier(w.nodes[k], ev.nodes[k]);
      }
    }
    UnknownHoldsNothing(w.jobs, name, Cpus);
    UnknownHoldsNothing(w.jobs, name, Bytes);
    UnknownHoldsNothing(w.jobs, name, Gpus);
  }

  lemma StepKeepsQuotas(w: World, ev: Event)
    requires RowsSound(w.jobs) && Gentle(w, ev) && QuotasHold(w) && !ClaimsBooked(w, ev)
    ensures QuotasHold(Step(w, ev))
  {
    hide JobsAfter, WriteOf, RowsSound, ClusterAfter, TokensAfter, ExecsAfter, StartsAfter, AdmittedTo, NoShrinkage, Binds,
         ClaimsBooked;
    var u := Step(w, ev);
    forall project, m ensures WithinQuota(u, project, m) {
      assert WithinQuota(w, project, m);
      RaisedOnlyWithinLimit(w, ev, project, m);
    }
  }

  /** Nothing is promised twice: no node past what it offers, no project past its limits. */
  ghost predicate Kept(w: World) {
    RowsSound(w.jobs) && NodesKnown(w) && NodesHold(w) && QuotasHold(w)
  }

  /** The claim of a booked job for which its node, or its project's limit, no longer has room. */
  ghost predicate Overcommits(w: World, ev: Event) {
    ClaimsBooked(w, ev) &&
    var row := w.jobs[WriteOf(w, ev).value.job];
    || (exists i :: 0 <= i < |w.nodes| && w.nodes[i].name == row.node.value && NoRoomOn(w, w.nodes[i], row.request))
    || (exists m :: NoRoomUnder(w, row.project, row.request, m))
  }

  ghost predicate NoRoomOn(w: World, n: Node, r: Request) {
    || !Holds(Load(w, n.name, Cpus) + Wanted(r, Cpus), OfferOf(n, Cpus))
    || !Holds(Load(w, n.name, Bytes) + Wanted(r, Bytes), OfferOf(n, Bytes))
    || !Holds(Load(w, n.name, Gpus) + Wanted(r, Gpus), OfferOf(n, Gpus))
  }

  ghost predicate NoRoomUnder(w: World, project: nat, r: Request, m: Measure) {
    LimitOf(QuotaOf(w, project), m) != 0 && Admitted(w, project, m) + Wanted(r, m) > LimitOf(QuotaOf(w, project), m)
  }

  lemma BookedNode(w: World, ev: Event, i: nat)
    requires ClaimsBooked(w, ev) && NodesHold(w) && i < |w.nodes|
    ensures var row := w.jobs[WriteOf(w, ev).value.job];
      NodeHolds(Step(w, ev), w.nodes[i]) <==> !(w.nodes[i].name == row.node.value && NoRoomOn(w, w.nodes[i], row.request))
  {
    hide JobsAfter, WriteOf, OfferOf, ClusterAfter, TokensAfter, ExecsAfter, StartsAfter, HeldOn, AdmittedTo, Wanted;
    var n := w.nodes[i];
    ClaimingBookedAdds(w, ev, n.name, 0, Cpus);
    ClaimingBookedAdds(w, ev, n.name, 0, Bytes);
    ClaimingBookedAdds(w, ev, n.name, 0, Gpus);
    assert NodeHolds(w, n);
  }

  lemma BookedQuota(w: World, ev: Event, project: nat, m: Measure)
    requires ClaimsBooked(w, ev) && QuotasHold(w)
    ensures var row := w.jobs[WriteOf(w, ev).value.job];
      WithinQuota(Step(w, ev), project, m) <==> !(project == row.project && NoRoomUnder(w, project, row.request, m))
  {
    hide JobsAfter, WriteOf, ClusterAfter, TokensAfter, ExecsAfter, StartsAfter, HeldOn, AdmittedTo, Wanted;
    ClaimingBookedAdds(w, ev, 0, project, m);
    SubmitWritesNothing(w, ev);
    assert WithinQuota(w, project, m);
  }

  lemma BookedClaimKeepsIff(w: World, ev: Event)
    requires Kept(w) && Gentle(w, ev) && ClaimsBooked(w, ev)
    ensures Kept(Step(w, ev)) <==> !Overcommits(w, ev)
  {
    hide JobsAfter, WriteOf, ClusterAfter, TokensAfter, ExecsAfter, StartsAfter, NodeHolds, WithinQuota, NoRoomOn, NoRoomUnder,
         NodesKnown, RowsSound;
    StepKeepsRows(w, ev);
    StepKeepsKnown(w, ev);
    SubmitWritesNothing(w, ev);
    var u, row := Step(w, ev), w.jobs[WriteOf(w, ev).value.job];
    assert u.nodes == w.nodes;
    forall i | 0 <= i < |w.nodes|
      ensures NodeHolds(u, w.nodes[i]) <==> !(w.nodes[i].name == row.node.value && NoRoomOn(w, w.nodes[i], row.request))
    {
      BookedNode(w, ev, i);
    }
    forall project, m
      ensures WithinQuota(u, project, m) <==> !(project == row.project && NoRoomUnder(w, project, row.request, m))
    {
      BookedQuota(w, ev, project, m);
    }
    if exists m :: NoRoomUnder(w, row.project, row.request, m) {
      var m :| NoRoomUnder(w, row.project, row.request, m);
      assert !WithinQuota(u, row.project, m);
    }
  }

  /**
   The only step that can promise too much, whichever executor takes it, is the claim of a job
   that still holds a node, and it does so exactly when there is no longer room for the job.
   */
  lemma StepKeepsIff(w: World, ev: Event)
    requires Kept(w) && Gentle(w, ev)
    ensures Kept(Step(w, ev)) <==> !Overcommits(w, ev)
  {
    hide RowsSound, NodesKnown, NodesHold, QuotasHold, Step, Gentle;
    if ClaimsBooked(w, ev) {
      BookedClaimKeepsIff(w, ev);
    } else {
      StepKeepsRows(w, ev);
      StepKeepsKnown(w, ev);
      StepKeepsNodes(w, ev);
      StepKeepsQuotas(w, ev);
      StepJobs(w, ev);
    }
  }

  lemma StepJobs(w: World, ev: Event)
    ensures Step(w, ev).jobs == JobsAfter(w, ev)
  {
  }

  ghost predicate KeptThroughout(w: World, evs: seq<Event>) {
    Kept(Run(w, evs)) && (evs == [] || KeptThroughout(w, evs[..|evs| - 1]))
  }

  ghost predicate NeverOvercommits(w: World, evs: seq<Event>) {
    evs == [] || (NeverOvercommits(w, evs[..|evs| - 1]) && !Overcommits(Run(w, evs[..|evs| - 1]), evs[|evs| - 1]))
  }

  /**
   Over every run in which nothing is taken away, with any number of executors and crashes:
   nothing is promised twice at any point, of any node or under any limit, exactly when no step
   claims a job still holding a node for which there is no room.
   */
  lemma {:induction false} NothingIsOverPromisedIff(nodes: seq<Node>, quotas: map<nat, Quota>, evs: seq<Event>)
    requires UniqueNames(nodes) && AllGentle(Start(nodes, quotas), evs)
    ensures KeptThroughout(Start(nodes, quotas), evs) <==> NeverOvercommits(Start(nodes, quotas), evs)
  {
    hide Step, Kept, Gentle, Overcommits;
    if evs != [] {
      var before := evs[..|evs| - 1];
      NothingIsOverPromisedIff(nodes, quotas, before);
      if Kept(Run(Start(nodes, quotas), before)) {
        StepKeepsIff(Run(Start(nodes, quotas), before), evs[|evs| - 1]);
      }
    } else {
      StartKept(nodes, quotas);
    }
  }

  lemma StartKept(nodes: seq<Node>, quotas: map<nat, Quota>)
    requires UniqueNames(nodes)
    ensures Kept(Start(nodes, quotas)) && QueueHoldsNothing(Start(nodes, quotas))
  {
  }

  // ------------------------------------------------ where a booked job comes from

  ghost predicate QueueHoldsNothing(w: World) {
    forall j :: 0 <= j < |w.jobs| && w.jobs[j].state.QUEUED? ==> w.jobs[j].node.None?
  }

  lemma QueuedUnbound(row: Job, c: Change)
    requires RowSound(row) && (row.state.QUEUED? ==> row.node.None?)
    ensures (Apply(row, c).state.QUEUED? ==> Apply(row, c).node.None?) <==> !(c.Bound? && row.state.QUEUED?)
  {
  }

  lemma StepKeepsQueueIff(w: World, ev: Event)
    requires RowsSound(w.jobs) && QueueHoldsNothing(w)
    ensures QueueHoldsNothing(Step(w, ev)) <==> !BindsQueued(w, ev)
  {
    hide JobsAfter, WriteOf, Apply, ClusterAfter, TokensAfter, ExecsAfter, StartsAfter, RowSound;
    var jobs := JobsAfter(w, ev);
    forall j | 0 <= j < |jobs|
      ensures (jobs[j].state.QUEUED? ==> jobs[j].node.None?) <==> !(BindsQueued(w, ev) && WriteOf(w, ev).value.job == j)
    {
      if j >= |w.jobs| {
        NewRows(w, ev, j);
      } else {
        RowAfter(w, ev, j);
        if WriteOf(w, ev).Some? && WriteOf(w, ev).value.job == j {
          QueuedUnbound(w.jobs[j], WriteOf(w, ev).value.change);
        }
      }
    }
    if BindsQueued(w, ev) {
      RowAfter(w, ev, WriteOf(w, ev).value.job);
    }
  }

  ghost predicate NeverBindsQueued(w: World, evs: seq<Event>) {
    evs == [] || (NeverBindsQueued(w, evs[..|evs| - 1]) && !BindsQueued(Run(w, evs[..|evs| - 1]), evs[|evs| - 1]))
  }

  ghost predicate QueueHoldsNothingThroughout(w: World, evs: seq<Event>) {
    QueueHoldsNothing(Run(w, evs)) && (evs == [] || QueueHoldsNothingThroughout(w, evs[..|evs| - 1]))
  }

  /**
   Over every run, with any number of executors and crashes: a queued job holds a node at some
   point exactly when some step binds a job that is in the queue.
   */
  lemma {:induction false} QueueHoldsNothingIff(nodes: seq<Node>, quotas: map<nat, Quota>, evs: seq<Event>)
    ensures QueueHoldsNothingThroughout(Start(nodes, quotas), evs) <==> NeverBindsQueued(Start(nodes, quotas), evs)
  {
    hide Step, BindsQueued, QueueHoldsNothing, StartsSound, RowsSound;
    if evs != [] {
      var before := evs[..|evs| - 1];
      QueueHoldsNothingIff(nodes, quotas, before);
      RunKeepsSound(nodes, quotas, before);
      if QueueHoldsNothing(Run(Start(nodes, quotas), before)) {
        StepKeepsQueueIff(Run(Start(nodes, quotas), before), evs[|evs| - 1]);
      }
    } else {
      StartQueue(nodes, quotas);
    }
  }

  lemma StartQueue(nodes: seq<Node>, quotas: map<nat, Quota>)
    ensures QueueHoldsNothing(Start(nodes, quotas))
  {
  }

  /**
   Over every run in which nothing is taken away, with any number of executors: while no job is
   bound in the queue, the CPU, memory and GPUs of the jobs that occupy each node total no more
   than it offers net of reservations, and every project holds no more of a limited resource
   than its limit.
   */
  lemma {:induction false} NothingIsOverPromised(nodes: seq<Node>, quotas: map<nat, Quota>, evs: seq<Event>)
    requires UniqueNames(nodes) && AllGentle(Start(nodes, quotas), evs)
    requires NeverBindsQueued(Start(nodes, quotas), evs)
    ensures Kept(Run(Start(nodes, quotas), evs)) && QueueHoldsNothing(Run(Start(nodes, quotas), evs))
  {
    hide Step, Kept, Gentle, BindsQueued, QueueHoldsNothing, ClaimsBooked;
    if evs != [] {
      var before := Run(Start(nodes, quotas), evs[..|evs| - 1]);
      NothingIsOverPromised(nodes, quotas, evs[..|evs| - 1]);
      KeptIsSound(before);
      StepKeepsQueueIff(before, evs[|evs| - 1]);
      NoBookedClaim(before, evs[|evs| - 1]);
      StepKeepsIff(before, evs[|evs| - 1]);
    } else {
      StartKept(nodes, quotas);
    }
  }

  lemma KeptIsSound(w: World)
    requires Kept(w)
    ensures RowsSound(w.jobs)
  {
  }

  lemma NoBookedClaim(w: World, ev: Event)
    requires QueueHoldsNothing(w)
    ensures !ClaimsBooked(w, ev) && !Overcommits(w, ev)
  {
    hide WriteOf;
  }

  /** A lone executor never binds a job in the queue. */
  lemma {:induction false} SoleNeverBindsQueued(nodes: seq<Node>, quotas: map<nat, Quota>, evs: seq<Event>)
    requires O.AllSole(evs)
    ensures NeverBindsQueued(Start(nodes, quotas), evs)
  {
    hide Step, O.Inv, WriteOf;
    if evs != [] {
      var before := Run(Start(nodes, quotas), evs[..|evs| - 1]);
      SoleNeverBindsQueued(nodes, quotas, evs[..|evs| - 1]);
      O.RunKeepsInv(nodes, quotas, evs[..|evs| - 1]);
      if WriteOf(before, evs[|evs| - 1]).Some? {
        O.WritesAreApt(before, evs[|evs| - 1]);
      }
    }
  }

  /** So with one executor nothing is ever promised twice, whatever comes in between. */
  lemma OneExecutorOverPromisesNothing(nodes: seq<Node>, quotas: map<nat, Quota>, evs: seq<Event>)
    requires UniqueNames(nodes) && AllGentle(Start(nodes, quotas), evs) && O.AllSole(evs)
    ensures Kept(Run(Start(nodes, quotas), evs))
  {
    SoleNeverBindsQueued(nodes, quotas, evs);
    NothingIsOverPromised(nodes, quotas, evs);
  }
}
