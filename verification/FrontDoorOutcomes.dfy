/**
 What each operation leaves behind, outright: how many pods every version is given, what is gone
 after a retirement, and what each status stands for.
 */
module FrontDoorOutcomes {
  import opened Prelude
  import opened Names
  import opened Cluster
  import opened Routing
  import opened DeploymentRows
  import opened FrontDoor
  import opened FrontDoorSafety
  import opened FrontDoorRuns
  import opened FrontDoorAnswering

  // --------------------------------------------------------------- how many pods

  /** The version's Deployment exists and wants so many pods. */
  ghost predicate Wants(row: Row, c: State, version: nat, n: nat) {
    TName(row, version) in c.deployments && c.deployments[TName(row, version)].desired == n
  }

  /**
   Every version that takes traffic, and the one the address stands on, is given the pods it was
   deployed with; every other version none; and a router two.
   */
  ghost predicate PodsAsAsked(w: World) {
    && (forall t :: t in w.row.targets && t.weight > 0 ==> Wants(w.row, w.cluster, t.version, t.replicas))
    && (forall t :: t in w.row.targets && w.row.servingVersion == Some(t.version) ==>
         Wants(w.row, w.cluster, t.version, t.replicas))
    && (forall t :: t in w.row.targets && t.weight <= 0 && w.row.servingVersion != Some(t.version) ==>
         Wants(w.row, w.cluster, t.version, 0))
    && (w.row.routerName.Some? ==>
         RName(w.row) in w.cluster.deployments && w.cluster.deployments[RName(w.row)].desired == 2)
  }

  lemma LivePods(w: World)
    requires Live(w)
    ensures PodsAsAsked(w)
  {
    hide Tidy, FrontInStep, Settings, Named, TargetName, RouterName, DesiredFront;
    forall t | t in w.row.targets
      ensures Wants(w.row, w.cluster, t.version,
                    if t.weight > 0 || w.row.servingVersion == Some(t.version) then t.replicas else 0)
    {
      assert PodsWanted(w.row, w.cluster, t);
    }
  }

  /** Applying a row gives every version the pods that are asked for it. */
  lemma ApplyGivesPods(w: World, apiUrl: bool)
    requires Pending(w)
    ensures PodsAsAsked(ApplyDesiredState(w, apiUrl))
    ensures SameTargets(ApplyDesiredState(w, apiUrl).row.targets, w.row.targets)
  {
    hide Pending, Live, ApplyDesiredState, SameTargets;
    ApplyMakesLive(w, apiUrl);
    LivePods(ApplyDesiredState(w, apiUrl));
  }

  lemma TargetLeft(w: World, row: Row, version: nat)
    requires SameTargets(w.row.targets, row.targets) && Serves(row.targets, version)
    ensures exists i ::
      && 0 <= i < |row.targets| && row.targets[i].version == version
      && w.row.targets[i] in w.row.targets && w.row.targets[i].version == version
      && w.row.targets[i].weight == row.targets[i].weight && w.row.targets[i].replicas == row.targets[i].replicas
  {
    var t :| t in row.targets && t.version == version;
    var i :| 0 <= i < |row.targets| && row.targets[i] == t;
    assert w.row.targets[i] in w.row.targets;
  }

  /** A deploy gives the version deployed the pods asked for, and leaves none to any the address is not on. */
  lemma DeployGivesPods(w: World, version: nat, replicas: nat, apiUrl: bool)
    requires Inv(w) && replicas >= 1
    ensures var after := Deployed(w, version, replicas, true, apiUrl);
      && PodsAsAsked(after) && Wants(w.row, after.cluster, version, replicas)
      && (forall t :: t in after.row.targets && t.version != version && after.row.servingVersion != Some(t.version) ==>
           Wants(w.row, after.cluster, t.version, 0))
  {
    hide Pending, Live, ApplyDesiredState, Inv, Serves, TargetName, Upserted, SameTargets;
    var asked := w.(row := DeployedRow(w.row, version, replicas));
    InvSorted(w);
    DeployIsPending(w, version, replicas);
    ApplyGivesPods(asked, apiUrl);
    ApplyKeepsNames(asked, apiUrl);
    var after := ApplyDesiredState(asked, apiUrl);
    DeployedServing(w.row, version, replicas);
    var zeroed := ZeroedExcept(w.row.targets, version);
    ZeroedSorted(w.row.targets, version);
    UpsertedMembers(zeroed, version, TOTAL_WEIGHT, replicas);
    TargetLeft(after, asked.row, version);
    forall t | t in after.row.targets && t.version != version && after.row.servingVersion != Some(t.version)
      ensures Wants(w.row, after.cluster, t.version, 0)
    {
      OutOfTheDeploy(after, asked.row, t);
    }
  }

  lemma OutOfTheDeploy(w: World, row: Row, t: Target)
    requires SameTargets(w.row.targets, row.targets) && t in w.row.targets
    ensures exists u :: u in row.targets && u.version == t.version && u.weight == t.weight
  {
    var i :| 0 <= i < |w.row.targets| && w.row.targets[i] == t;
    assert row.targets[i] in row.targets;
  }

  lemma InvSorted(w: World)
    requires Inv(w)
    ensures Sorted(w.row.targets)
  {
  }

  lemma ZeroedSorted(ts: seq<Target>, version: nat)
    requires Sorted(ts)
    ensures Sorted(ZeroedExcept(ts, version))
  {
  }

  /** So it is after every operation of every run, once there is a deployment; and a pass leaves it so. */
  lemma {:induction false} RunGivesPods(w: World, steps: seq<Step>)
    requires Inv(w)
    requires forall k :: 0 <= k < |steps| ==> Allowed(Run(w, steps[..k]), steps[k])
    ensures Exists(Run(w, steps).row) ==> PodsAsAsked(Run(w, steps))
  {
    hide Inv, Live, Run, Allowed, PodsAsAsked;
    RunKeepsInv(w, steps);
    if Exists(Run(w, steps).row) {
      ExistsIsLive(Run(w, steps));
      LivePods(Run(w, steps));
    }
  }

  lemma SyncGivesPods(w: World)
    requires Live(w)
    ensures PodsAsAsked(Synced(w)) && SameTargets(Synced(w).row.targets, w.row.targets)
  {
    hide Live, PodsAsAsked, WillMove, ObservedTargets, Judge, AfterMove, Moved;
    SyncKeepsLive(w);
    LivePods(Synced(w));
    LiveIsActive(w);
    SyncKeepsTargets(w);
  }

  lemma SyncKeepsTargets(w: World)
    requires Active(w.row)
    ensures SameTargets(Synced(w).row.targets, w.row.targets)
  {
    hide WillMove, Judge, StatusFromObservation, ScaledDown, Doomed;
  }

  /** A version rolled out for the first time is given the deployment's own number of pods. */
  lemma RolloutGivesPods(w: World, version: nat, traffic: int, apiUrl: bool)
    requires Live(w) && 0 <= traffic <= TOTAL_WEIGHT
    ensures PodsAsAsked(RolledOut(w, version, traffic, true, apiUrl))
    ensures InRange(Split(w.row.targets))
    ensures !Serves(w.row.targets, version) ==>
      exists t :: t in RolledOut(w, version, traffic, true, apiUrl).row.targets && t.version == version && t.replicas == w.row.replicas
  {
    hide Pending, Live, ApplyDesiredState, RolledOutRow, PodsAsAsked;
    LiveSorted(w);
    LiveExists(w);
    RolloutIsPending(w, version, traffic);
    var asked := w.(row := RolledOutRow(w.row, version, traffic));
    ApplyGivesPods(asked, apiUrl);
    if !Serves(w.row.targets, version) {
      NewcomerReplicas(w.row, version, traffic);
      TargetLeft(ApplyDesiredState(asked, apiUrl), asked.row, version);
    }
  }

  lemma NewcomerReplicas(row: Row, version: nat, traffic: int)
    requires Sorted(row.targets) && InRange(Split(row.targets)) && !Serves(row.targets, version)
    ensures Serves(RolledOutRow(row, version, traffic).targets, version)
    ensures forall t :: t in RolledOutRow(row, version, traffic).targets && t.version == version ==> t.replicas == row.replicas
  {
    hide ApplyRollout, Upserted;
    var upserted := Upserted(row.targets, version, 0, row.replicas);
    UpsertedMembers(row.targets, version, 0, row.replicas);
    WeightsKeepReplicas(upserted, ApplyRollout(RolloutBase(row.targets, version), version, traffic));
    var ts := RolledOutRow(row, version, traffic).targets;
    var u :| u in upserted && u.version == version;
    var k :| 0 <= k < |upserted| && upserted[k] == u;
    assert ts[k] in ts;
    forall t | t in ts && t.version == version ensures t.replicas == row.replicas {
      var i :| 0 <= i < |ts| && ts[i] == t;
      assert upserted[i] in upserted;
    }
  }

  lemma {:induction false} WeightsKeepReplicas(ts: seq<Target>, shares: seq<Share>)
    ensures forall i :: 0 <= i < |ts| ==>
      WithWeights(ts, shares)[i].version == ts[i].version && WithWeights(ts, shares)[i].replicas == ts[i].replicas
  {
    if shares != [] {
      WeightsKeepReplicas(ts, shares[..|shares| - 1]);
    }
  }

  // ------------------------------------------------------------------- retirement

  /** A version may be retired while it is served, takes no traffic and the address is not on it. */
  ghost predicate Retirable(row: Row, version: nat) {
    && (exists t :: t in row.targets && t.version == version && t.weight <= 0)
    && row.servingVersion != Some(version)
  }

  lemma CanRetireMeans(row: Row, version: nat)
    requires Sorted(row.targets)
    ensures CanRetire(row, version) <==> Retirable(row, version)
  {
    hide Sorted;
    if t :| t in row.targets && t.version == version && t.weight <= 0 {
      assert Serves(row.targets, version);
      SortedUnique(row.targets, t, Find(row.targets, version).value);
    }
  }

  /** A retirement that is refused changes nothing; one that is not leaves neither the version nor its objects, and everything else. */
  lemma RetireLeavesNothing(w: World, version: nat)
    requires Live(w)
    ensures var after := Retired(w, version);
      if !Retirable(w.row, version) then after == w
      else
        && (forall t :: t in after.row.targets <==> t in w.row.targets && t.version != version)
        && after.cluster.deployments == w.cluster.deployments - {TName(w.row, version)}
        && after.cluster.services == w.cluster.services - {TName(w.row, version)}
  {
    hide TargetName, RouterName, FrontName, Tidy, RouterInStep, FrontInStep, ValidId, ValidSplit, AllPodsWanted, Find, Sorted;
    CanRetireMeans(w.row, version);
  }

  // --------------------------------------------------------------- what is reaped

  /** Every model-server object of the deployment is of a version served or pointed at. */
  ghost predicate OnlyKept(w: World) {
    forall n :: n in w.cluster.deployments && IsPods(w.row.id, w.cluster.deployments[n].labels) ==>
      ModelVersion in w.cluster.deployments[n].labels && KeptLabel(w.row, w.cluster.deployments[n].labels[ModelVersion])
  }

  predicate IsPods(id: string, labels: Labels) {
    Owned(id, labels) && Component in labels && labels[Component] == "model-server"
  }

  ghost predicate KeptLabel(row: Row, version: string) {
    || (exists t :: t in row.targets && version == Decimal(t.version))
    || (row.servingVersion.Some? && version == Decimal(row.servingVersion.value))
  }

  lemma ReapLeavesOnlyKept(w: World)
    ensures OnlyKept(Reaped(w))
  {
    forall n | n in Reaped(w).cluster.deployments && IsPods(w.row.id, w.cluster.deployments[n].labels)
      ensures ModelVersion in w.cluster.deployments[n].labels && KeptLabel(w.row, w.cluster.deployments[n].labels[ModelVersion])
    {
      ReapedUnlessKept(w, n);
    }
  }

  lemma ReapedUnlessKept(w: World, n: string)
    requires n in Reaped(w).cluster.deployments && IsPods(w.row.id, w.cluster.deployments[n].labels)
    ensures ModelVersion in w.cluster.deployments[n].labels && KeptLabel(w.row, w.cluster.deployments[n].labels[ModelVersion])
  {
    var labels := map[DeploymentId := w.row.id, Component := "model-server"];
    assert n !in Doomed(w);
    assert n in Listed(w.cluster, labels);
  }

  /** So it is after any apply that has the address a router needs, and after any pass that moves the address. */
  lemma ApplyLeavesOnlyKept(w: World, apiUrl: bool)
    requires apiUrl || |Serving(LaunchAll(w, w.row.targets).row.targets)| <= 1
    ensures OnlyKept(ApplyDesiredState(w, apiUrl))
  {
    hide LaunchAll, Serving, OnlyKept, Reaped, FrontCreated, RouterApplied, Judged, RouterRemoved;
    var launched := LaunchAll(w, w.row.targets);
    ReapLeavesOnlyKept(RouterRemoved(Judged(FrontCreated(RouterApplied(launched)), w.row.status)));
  }

  lemma MoveLeavesOnlyKept(w: World)
    requires Active(w.row) && WillMove(ObservedRow(w))
    ensures OnlyKept(Synced(w))
  {
    hide WillMove, ObservedRow, Reaped, Judge, ScaledDown, Doomed, Moved;
    var moved := Moved(w.(row := ObservedRow(w)));
    ReapLeavesOnlyKept(RouterRemoved(moved.(cluster := ScaledDown(moved, moved.row.targets))));
  }

  /** What is refused, and that nothing is changed by it. */
  lemma RefusalsChangeNothing(w: World, version: nat, replicas: nat, traffic: int, admitted: bool, apiUrl: bool)
    ensures replicas < 1 || !admitted ==> Deployed(w, version, replicas, admitted, apiUrl) == w
    ensures traffic < 0 || traffic > 100 || w.row.targets == [] ==> RolledOut(w, version, traffic, admitted, apiUrl) == w
    ensures !admitted && (forall t :: t in w.row.targets ==> t.version != version) ==>
      RolledOut(w, version, traffic, admitted, apiUrl) == w
  {
    hide ApplyDesiredState;
  }

  /** Launching gives each version a Service of its own, selecting that version's pods, where it had none. */
  lemma {:induction false} LaunchedService(w: World, ts: seq<Target>, t: Target)
    requires t in ts && TName(w.row, t.version) !in w.cluster.services
    ensures var c := LaunchAll(w, ts).cluster;
      && TName(w.row, t.version) in c.services
      && forall v: nat :: Matches(c.services[TName(w.row, t.version)], TargetLabels(w.row.id, v)) <==> v == t.version
  {
    hide TargetName, LaunchTarget, Matches;
    var k := |ts| - 1;
    var n := TName(w.row, t.version);
    LaunchKeepsRow(w, ts[..k]);
    if u :| u in ts[..k] && n == TName(w.row, u.version) {
      NamesApart(w.row, t.version, u.version);
      LaunchedService(w, ts[..k], u);
    } else {
      LaunchElsewhere(w, ts[..k], n);
      assert ts == ts[..k] + [ts[k]] && t !in ts[..k];
    }
    LaunchedOnce(LaunchAll(w, ts[..k]), ts[k]);
  }

  /** A Service there was is left alone, and one there was not selects the version's pods. */
  lemma LaunchedOnce(w: World, t: Target)
    ensures var n, c := TName(w.row, t.version), LaunchTarget(w, t).cluster;
      && (forall m :: m in w.cluster.services ==> m in c.services && c.services[m] == w.cluster.services[m])
      && n in c.services
      && (n !in w.cluster.services ==>
           forall v: nat :: Matches(c.services[n], TargetLabels(w.row.id, v)) <==> v == t.version)
  {
    hide TargetName, Replicas, Matches;
    forall v: nat ensures Matches(TargetSelector(w.row.id, t.version), TargetLabels(w.row.id, v)) <==> v == t.version {
      VersionSelector(w.row.id, t.version, v);
    }
  }

  lemma VersionSelector(id: string, v: nat, w: nat)
    ensures Matches(TargetSelector(id, v), TargetLabels(id, w)) <==> v == w
    ensures !Matches(TargetSelector(id, v), RouterLabels(id))
  {
    assert TargetSelector(id, v)[ModelVersion] == Decimal(v);
    assert TargetLabels(id, w)[ModelVersion] == Decimal(w);
    if Decimal(v) == Decimal(w) { DecimalInjective(v, w); }
    assert ModelVersion in TargetSelector(id, v) && ModelVersion !in RouterLabels(id);
    assert DeploymentId in TargetSelector(id, v);
  }

  // --------------------------------------------------------------- what is counted

  /** The records of versions that differ between one row and another of the same length. */
  function Differing(before: seq<Target>, after: seq<Target>): set<nat>
    requires |before| == |after|
  {
    set i: nat | i < |before| && before[i] != after[i]
  }

  /** The count a pass returns is of the records it found different: versions, router and deployment. */
  lemma ChangesCounted(w: World)
    ensures !Active(w.row) ==> Changes(w) == 0 && Synced(w) == w
    ensures Active(w.row) ==>
      var after, router := Synced(w).row, ObservedRow(w);
      && |after.targets| == |w.row.targets|
      && Changes(w) == |Differing(w.row.targets, after.targets)|
                       + (if router.routerStatus == w.row.routerStatus && router.routerReady == w.row.routerReady then 0 else 1)
                       + (if after.status == w.row.status && after.readyReplicas == w.row.readyReplicas
                             && after.lastError == w.row.lastError then 0 else 1)
  {
    hide WillMove, RollUpStatus, FrontReady, StatusFromObservation, ScaledDown, Doomed, TargetChanges;
    if Active(w.row) {
      TargetsCounted(w.cluster, w.row.targets);
    }
  }

  lemma {:induction false} TargetsCounted(c: State, ts: seq<Target>)
    ensures TargetChanges(c, ts) == |Differing(ts, ObservedTargets(c, ts))|
  {
    hide ObservedTarget;
    var seen := ObservedTargets(c, ts);
    if ts == [] {
      assert Differing(ts, seen) == {};
    } else {
      var n: nat := |ts| - 1;
      TargetsCounted(c, ts[..n]);
      var rest := Differing(ts[..n], ObservedTargets(c, ts[..n]));
      assert Differing(ts, seen) == rest + if seen[n] != ts[n] then {n} else {};
    }
  }

  // -------------------------------------------------------------------- statuses

  /** What one version's status says of its pods. */
  lemma VersionStatusMeans(o: Option<Observation>, previous: Option<Status>)
    ensures var v := StatusFromObservation(o, previous);
      if o.None? then v.status == FAILED && v.readyReplicas == 0 && v.lastError == Some(GONE)
      else
        var seen := o.value;
        var broken := seen.reason.Some? && seen.reason.value != "";
        var served := previous == Some(READY) || previous == Some(DEGRADED);
        && v.readyReplicas == seen.ready
        && (v.status == READY <==> seen.desired > 0 && seen.ready >= seen.desired)
        && (v.status == STOPPED <==> seen.desired == 0)
        && (v.status == FAILED <==> seen.ready < seen.desired && broken)
        && (v.status == DEGRADED <==> seen.ready < seen.desired && !broken && served)
        && (v.status == PROGRESSING <==> seen.ready < seen.desired && !broken && !served)
        && v.lastError == (if v.status == FAILED then seen.reason else if v.status == DEGRADED then seen.pendingReason else None)
  {
  }

  ghost predicate InRotation(ts: seq<Target>, t: Target) {
    t in ts && t.weight > 0
  }

  ghost predicate SomeInRotation(ts: seq<Target>) {
    exists t :: InRotation(ts, t)
  }

  ghost predicate AllInRotation(ts: seq<Target>, status: Status) {
    forall t :: InRotation(ts, t) ==> t.status == status
  }

  ghost predicate AnyBroken(ts: seq<Target>) {
    exists t :: InRotation(ts, t) && (t.status == FAILED || t.status == DEGRADED)
  }

  /**
   What a deployment's status says of its versions in rotation and of its address: stopped with none
   in rotation, failed with all of them failed, ready with all of them ready behind an address that
   answers where it should. Otherwise, if the address does not answer, it is degraded if it has
   answered before and progressing if not; and if it does, degraded if any is broken and
   progressing if not.
   */
  lemma DeploymentStatusMeans(ts: seq<Target>, frontReady: bool, inPlace: bool, previous: Status)
    ensures var status := RollUpStatus(ts, frontReady, inPlace, previous).status;
      var some, failed := SomeInRotation(ts), AllInRotation(ts, FAILED);
      var served := previous == READY || previous == DEGRADED;
      && (status == STOPPED <==> !some)
      && (status == FAILED <==> some && failed)
      && (status == DEGRADED <==> some && !failed && (if frontReady then AnyBroken(ts) else served))
      && (status == READY <==> some && frontReady && inPlace && AllInRotation(ts, READY))
      && (status == PROGRESSING <==>
           some && !failed && if frontReady then !AnyBroken(ts) && !(inPlace && AllInRotation(ts, READY)) else !served)
      && status != PENDING
  {
    hide ReadySum, Mentions, SomeInRotation, AllInRotation, AnyBroken, Serving, Broken, NotReady;
    ServingMeans(ts);
  }

  lemma ServingMeans(ts: seq<Target>)
    ensures SomeInRotation(ts) <==> Serving(ts) != []
    ensures AllInRotation(ts, FAILED) <==> forall t <- Serving(ts) :: t.status == FAILED
    ensures AllInRotation(ts, READY) <==> NotReady(Serving(ts)) == []
    ensures AnyBroken(ts) <==> Broken(Serving(ts)) != []
    ensures AllInRotation(ts, READY) && SomeInRotation(ts) ==> !AllInRotation(ts, FAILED) && !AnyBroken(ts)
  {
    var serving := Serving(ts);
    assert forall t :: t in serving <==> InRotation(ts, t);
    if serving != [] {
      assert InRotation(ts, serving[0]);
    }
  }

  /** What a status is explained by: the versions that failed, those not ready while nothing answers, or those broken. */
  lemma ExplanationMeans(ts: seq<Target>, frontReady: bool, inPlace: bool, previous: Status)
    ensures var v := RollUpStatus(ts, frontReady, inPlace, previous);
      match v.status
      case STOPPED => v.lastError == AllWeightsZero
      case FAILED => v.lastError.AllFailed? && forall m :: m in v.lastError.versions <==> Mentioned(ts, m, {FAILED})
      case DEGRADED =>
        if frontReady then
          v.lastError.PartlyBroken? && forall m :: m in v.lastError.versions <==> Mentioned(ts, m, {FAILED, DEGRADED})
        else
          v.lastError.NotAnswering?
          && forall m :: m in v.lastError.versions <==> Mentioned(ts, m, {PENDING, PROGRESSING, DEGRADED, FAILED, STOPPED})
      case _ => v.lastError == NoError
    ensures RollUpStatus(ts, frontReady, inPlace, previous).readyReplicas == RotationReady(ts, |ts|)
  {
    hide ReadySum, Mentions, Serving, RotationReady, Mentioned, Broken, NotReady;
    ReadyCountsRotation(ts);
    if Serving(ts) == [] {
      assert ReadySum([]) == 0 by { NoneReady(); }
    }
    BrokenExactly(Serving(ts));
    NotReadyExactly(Serving(ts));
    if forall t <- Serving(ts) :: t.status == FAILED {
      MentionsOf(ts, Serving(ts), {FAILED});
    }
    MentionsOf(ts, Broken(Serving(ts)), {FAILED, DEGRADED});
    MentionsOf(ts, NotReady(Serving(ts)), {PENDING, PROGRESSING, DEGRADED, FAILED, STOPPED});
  }

  lemma NoneReady()
    ensures ReadySum([]) == 0
  {
  }

  /** A version in rotation, with one of these statuses, as it is reported. */
  ghost predicate Mentioned(ts: seq<Target>, m: Mention, statuses: set<Status>) {
    exists t :: InRotation(ts, t) && t.status in statuses && m == Mention(t.version, t.status, t.lastError)
  }

  lemma MentionsOf(ts: seq<Target>, some: seq<Target>, statuses: set<Status>)
    requires forall t :: t in some <==> InRotation(ts, t) && t.status in statuses
    ensures forall m :: m in Mentions(some) <==> Mentioned(ts, m, statuses)
  {
    var ms := Mentions(some);
    forall m | m in ms ensures Mentioned(ts, m, statuses) {
      var i :| 0 <= i < |ms| && ms[i] == m;
      assert some[i] in some;
    }
    forall m | Mentioned(ts, m, statuses) ensures m in ms {
      var t :| InRotation(ts, t) && t.status in statuses && m == Mention(t.version, t.status, t.lastError);
      var i :| 0 <= i < |some| && some[i] == t;
      assert ms[i] == m;
    }
  }

  lemma {:induction false} BrokenExactly(ts: seq<Target>)
    ensures forall t :: t in Broken(ts) <==> t in ts && t.status in {FAILED, DEGRADED}
  {
    if ts != [] { BrokenExactly(ts[1..]); }
  }

  lemma {:induction false} NotReadyExactly(ts: seq<Target>)
    ensures forall t :: t in NotReady(ts) <==> t in ts && t.status != READY
  {
    if ts != [] { NotReadyExactly(ts[1..]); }
  }

  /** The pods counted ready are those of the versions in rotation, and none when there is none. */
  lemma {:induction false} ReadyCountsRotation(ts: seq<Target>)
    ensures ReadySum(Serving(ts)) == RotationReady(ts, |ts|)
  {
    var n := |ts|;
    if ts != [] {
      assert ts == [ts[0]] + ts[1..];
      ReadyCountsRotation(ts[1..]);
      RotationReadyCons(ts[0], ts[1..], n - 1);
    }
  }

  /** Pods seen ready of the first `n` versions, of those that take traffic. */
  function RotationReady(ts: seq<Target>, n: nat): int
    requires n <= |ts|
  {
    if n == 0 then 0 else RotationReady(ts, n - 1) + if ts[n - 1].weight > 0 then ts[n - 1].readyReplicas else 0
  }

  lemma {:induction false} RotationReadyCons(t: Target, ts: seq<Target>, n: nat)
    requires n <= |ts|
    ensures RotationReady([t] + ts, n + 1) == (if t.weight > 0 then t.readyReplicas else 0) + RotationReady(ts, n)
  {
    if n > 0 {
      RotationReadyCons(t, ts, n - 1);
    } else {
      assert RotationReady([t] + ts, 0) == 0;
    }
  }
}
