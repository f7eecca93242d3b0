/**
 The operations on a deployment as the control plane carries them out, one write to the
 database or call to the cluster at a time (services/deployments.js).

 Every method is proved to do what the function of the same name in `FrontDoor` says, so
 the theorems about those functions are theorems about these steps.
 */
module ControlPlane {
  import opened Prelude
  import opened Names
  import opened Cluster
  import opened Routing
  import opened DeploymentRows
  import opened FrontDoor
  import Safety = FrontDoorSafety

  class Deployments {
    const store: DeploymentStore
    const cluster: SimCluster

    constructor (store: DeploymentStore, cluster: SimCluster)
      ensures this.store == store && this.cluster == cluster
    {
      this.store, this.cluster := store, cluster;
    }

    function View(): World
      reads store, cluster
    {
      World(store.row, cluster.View())
    }

    /** Creates or updates one version's own objects. */
    method LaunchOne(deployment: Row, target: Target)
      requires store.row.id == deployment.id && store.row.name == deployment.name
      requires store.row.servingVersion == deployment.servingVersion
      modifies store, cluster
      ensures View() == LaunchTarget(old(View()), target)
    {
      hide Applied, ServiceApplied, Replicas, TargetName, TargetLabels, TargetSelector;
      var name := TName(deployment, target.version);
      SameReplicas(deployment, store.row, target);
      cluster.ApplyDeployment(name, Replicas(deployment, target), TargetLabels(deployment.id, target.version));
      cluster.ApplyService(name, TargetSelector(deployment.id, target.version));
      store.RecordTargetLaunch(target.version, name);
    }

    /** Creates or updates every version's own objects. */
    method LaunchVersions()
      modifies store, cluster
      ensures View() == LaunchAll(old(View()), old(store.row).targets)
    {
      hide LaunchTarget;
      ghost var before := View();
      var deployment := store.row;
      for i := 0 to |deployment.targets|
        invariant View() == LaunchAll(before, deployment.targets[..i])
      {
        Safety.LaunchKeepsRow(before, deployment.targets[..i]);
        assert deployment.targets[..i + 1][..i] == deployment.targets[..i];
        LaunchOne(deployment, deployment.targets[i]);
      }
      WholeList(deployment.targets);
    }

    /** Makes the cluster match the row; returns whether the router, if wanted, could be given an address. */
    method Apply(apiUrl: bool) returns (ok: bool)
      modifies store, cluster
      ensures View() == ApplyDesiredState(old(View()), apiUrl)
      ensures ok == !(DesiredFront(LaunchAll(old(View()), old(store.row).targets).row).OnRouter? && !apiUrl)
    {
      hide LaunchAll, RouterApplied, FrontCreated, RouterRemoved, Reaped, Judge, DesiredFront;
      var previous := store.row.status;
      LaunchVersions();
      if DesiredFront(store.row).OnRouter? && !apiUrl {
        return false;
      }
      ApplyRouter();
      CreateFront();
      store.RecordObservation(Judge(store.row, previous));
      RemoveRouterIfUnused();
      Reap();
      return true;
    }

    method ApplyRouter()
      modifies store, cluster
      ensures View() == RouterApplied(old(View()))
    {
      if DesiredFront(store.row).OnRouter? {
        var name := RName(store.row);
        cluster.ApplyDeployment(name, ROUTER_REPLICAS, RouterLabels(store.row.id));
        if store.row.routerName != Some(name) {
          store.RecordRouter(Some(name));
        }
      }
    }

    method CreateFront()
      modifies store, cluster
      ensures View() == FrontCreated(old(View()))
    {
      if store.row.k8sName.None? {
        var front := DesiredFront(store.row);
        var version := if front.OnVersion? then Some(front.version) else None;
        cluster.ApplyService(FName(store.row), FrontSelector(store.row.id, version));
        store.RecordLaunch(FName(store.row));
        store.RecordServingVersion(version);
      }
    }

    method RemoveRouterIfUnused()
      modifies store, cluster
      ensures View() == RouterRemoved(old(View()))
    {
      if store.row.routerName.None? { return; }
      if DesiredFront(store.row).OnRouter? { return; }
      if CurrentFront(store.row).OnRouter? { return; }
      cluster.DeleteDeployment(store.row.routerName.value);
      store.RecordRouter(None);
    }

    method Reap()
      modifies cluster
      ensures View() == Reaped(old(View()))
    {
      ghost var before := View();
      ghost var doomed := Doomed(before);
      var keep := Kept(store.row);
      var existing := cluster.ListDeploymentNames(map[DeploymentId := store.row.id, Component := "model-server"]);
      var left := existing;
      while left != {}
        invariant left <= existing
        invariant View() == before.(cluster := WithoutNames(before.cluster, doomed - left))
        decreases |left|
      {
        hide Kept, Listed, Doomed, WithoutNames, Deleted;
        var name :| name in left;
        var labels := cluster.deployments[name].labels;
        ghost var gone := doomed - left;
        left := left - {name};
        DoomedIff(before, name, existing, keep);
        if !(ModelVersion in labels && labels[ModelVersion] in keep) {
          cluster.DeleteDeployment(name);
          DeletedAlso(before.cluster, gone, name);
          assert doomed - left == gone + {name};
        } else {
          assert doomed - left == gone;
        }
      }
      assert doomed - left == doomed;
    }

    /** Moves the address, if it should move and what it should stand on is ready. */
    method MoveFrontDoor() returns (moved: bool)
      requires store.row.k8sName.Some? && store.row.k8sName.value in cluster.services
      modifies store, cluster
      ensures moved == WillMove(old(store.row))
      ensures View() == if moved then Moved(old(View())) else old(View())
    {
      hide DesiredFront, CurrentFront, FrontReady;
      var wanted := DesiredFront(store.row);
      if wanted == NoFront || wanted == CurrentFront(store.row) { return false; }
      if !FrontReady(store.row, wanted) { return false; }
      var version := if wanted.OnVersion? then Some(wanted.version) else None;
      var patched := cluster.PatchServiceSelector(store.row.k8sName.value, FrontSelector(store.row.id, version));
      store.RecordServingVersion(version);
      return true;
    }

    method ScaleDownRetired()
      modifies cluster
      ensures View() == old(View()).(cluster := ScaledDown(old(View()), old(store.row).targets))
    {
      ghost var before := View();
      var ts := store.row.targets;
      for i := 0 to |ts|
        invariant View() == before.(cluster := ScaledDown(before, ts[..i]))
      {
        hide Applied, Replicas;
        assert ts[..i + 1][..i] == ts[..i];
        var target := ts[i];
        if target.weight == 0 && store.row.servingVersion != Some(target.version) && target.k8sName.Some? {
          cluster.ApplyDeployment(TName(store.row, target.version), Replicas(store.row, target),
                                  TargetLabels(store.row.id, target.version));
        }
      }
      assert ts[..|ts|] == ts;
    }

    /** Writes back what the cluster shows of one version, if it differs from the record. */
    method ObserveTarget(target: Target) returns (changed: bool)
      modifies store
      ensures changed == (ObservedTarget(cluster.View(), target) != target)
      ensures changed ==> target.k8sName.Some?
      ensures store.row == if !changed then old(store.row) else
        old(store.row).(targets := WithObservation(old(store.row).targets, target.version,
          StatusFromObservation(Observed(cluster.View(), target.k8sName.value), Some(target.status))))
    {
      if target.k8sName.None? { return false; }
      var observation := cluster.ObserveDeployment(target.k8sName.value);
      var next := StatusFromObservation(observation, Some(target.status));
      changed := next.status != target.status || next.readyReplicas != target.readyReplicas
                 || next.lastError != target.lastError;
      if changed {
        store.RecordTargetObservation(target.version, next);
      }
    }

    method ObserveTargets() returns (changed: nat)
      requires Sorted(store.row.targets)
      modifies store
      ensures store.row == old(store.row).(targets := ObservedTargets(cluster.View(), old(store.row).targets))
      ensures changed == TargetChanges(cluster.View(), old(store.row).targets)
    {
      ghost var before := store.row;
      ghost var c := cluster.View();
      var ts := store.row.targets;
      changed := 0;
      SeenNone(c, ts);
      hide *;
      for i := 0 to |ts|
        invariant store.row == before.(targets := SeenSoFar(c, ts, i))
        invariant changed == TargetChanges(c, ts[..i])
        invariant cluster.View() == c
      {
        var wrote := ObserveNext(before, ts, i);
        changed := changed + wrote;
      }
      WholeList(ts);
    }

    /** Observes the version at position `i`, the ones before it having been observed. */
    method ObserveNext(ghost before: Row, ts: seq<Target>, i: nat) returns (wrote: nat)
      requires Sorted(ts) && i < |ts|
      requires store.row == before.(targets := SeenSoFar(cluster.View(), ts, i))
      modifies store
      ensures store.row == before.(targets := SeenSoFar(cluster.View(), ts, i + 1))
      ensures TargetChanges(cluster.View(), ts[..i + 1]) == TargetChanges(cluster.View(), ts[..i]) + wrote
    {
      hide *;
      ChangesStep(cluster.View(), ts, i);
      SeenStep(cluster.View(), ts, i);
      var differs := ObserveTarget(ts[i]);
      wrote := if differs then 1 else 0;
    }

    method ObserveRouter() returns (changed: nat)
      modifies store
      ensures store.row == RouterObserved(old(store.row), cluster.View())
      ensures changed == RouterChanges(old(store.row), store.row)
    {
      changed := 0;
      if store.row.routerName.Some? {
        var observation := cluster.ObserveDeployment(store.row.routerName.value);
        var next := StatusFromObservation(observation, store.row.routerStatus);
        if Some(next.status) != store.row.routerStatus || next.readyReplicas != store.row.routerReady {
          store.RecordRouterObservation(next.status, next.readyReplicas);
          changed := 1;
        }
      }
    }

    /** One pass over this deployment; returns how many records it wrote observations into. */
    method Sync() returns (changed: nat)
      requires Sorted(store.row.targets)
      requires store.row.k8sName.Some? ==> store.row.k8sName.value in cluster.services
      modifies store, cluster
      ensures View() == Synced(old(View()))
      ensures changed == Changes(old(View()))
    {
      hide AfterMove, ObservedTargets, TargetChanges, WillMove, Judge, Moved;
      ghost var before := View();
      var deployment := store.row;
      if deployment.status == STOPPED || deployment.k8sName.None? {
        return 0;
      }
      changed := ObserveTargets();
      var router := ObserveRouter();
      changed := changed + router;
      ObservedInTwoSteps(before, store.row);
      var moved := MoveFrontDoor();
      if moved {
        Tidy();
      }
      assert View() == BeforeJudging(before);
      var next := Judge(store.row, deployment.status);
      JudgedRowKeepsRecord(before);
      if next.status != deployment.status || next.readyReplicas != deployment.readyReplicas
         || next.lastError != deployment.lastError {
        store.RecordObservation(next);
        changed := changed + 1;
      }
    }

    method Tidy()
      modifies store, cluster
      ensures View() == AfterMove(old(View()))
    {
      ScaleDownRetired();
      RemoveRouterIfUnused();
      Reap();
    }

    // ------------------------------------------------------------------ requests

    /** Deploys a version at 100, the others at 0. */
    method Deploy(version: nat, replicas: nat, admitted: bool, apiUrl: bool) returns (dropped: seq<nat>)
      modifies store, cluster
      ensures View() == Deployed(old(View()), version, replicas, admitted, apiUrl)
      ensures replicas >= 1 && admitted ==> dropped == Dropped(old(store.row).targets, version)
    {
      dropped := [];
      if replicas < 1 || !admitted { return; }
      ghost var before := store.row;
      var existing := store.row.targets;
      store.UpdateSpec(replicas);
      dropped := Dropped(existing, version);
      assert ZeroedPrefix(existing, version, 0) == existing;
      for i := 0 to |existing|
        invariant store.row == before.(replicas := replicas, targets := ZeroedPrefix(existing, version, i))
        invariant cluster.View() == old(cluster.View())
      {
        if existing[i].version != version {
          store.SetWeights([Share(existing[i].version, 0)]);
        }
        ZeroedStep(existing, version, i);
      }
      ZeroedWhole(existing, version);
      store.UpsertTarget(version, TOTAL_WEIGHT, replicas);
      var ok := Apply(apiUrl);
    }

    /** Gives one version a share of the traffic, and takes it from the others in proportion. */
    method Rollout(version: nat, traffic: int, admitted: bool, apiUrl: bool) returns (done: bool)
      requires InRange(Split(store.row.targets)) && Sorted(store.row.targets)
      modifies store, cluster
      ensures View() == RolledOut(old(View()), version, traffic, admitted, apiUrl)
      ensures done == (0 <= traffic <= TOTAL_WEIGHT && Exists(old(store.row))
                       && (Serves(old(store.row).targets, version) || admitted))
    {
      if traffic < 0 || traffic > TOTAL_WEIGHT || !Exists(store.row) { return false; }
      var existing := Find(store.row.targets, version);
      FindIffServes(store.row.targets, version);
      if existing.None? && !admitted { return false; }
      var current := RolloutBase(store.row.targets, version);
      if existing.None? {
        store.UpsertTarget(version, 0, store.row.replicas);
      }
      var next := ComputeRollout(current, version, traffic);
      store.SetWeights(next);
      var ok := Apply(apiUrl);
      return true;
    }

    /** Promoting is rolling out to everything. */
    method Promote(version: nat, admitted: bool, apiUrl: bool) returns (done: bool)
      requires InRange(Split(store.row.targets)) && Sorted(store.row.targets)
      modifies store, cluster
      ensures View() == RolledOut(old(View()), version, TOTAL_WEIGHT, admitted, apiUrl)
    {
      done := Rollout(version, TOTAL_WEIGHT, admitted, apiUrl);
    }

    /** Stops serving a version; refused while it takes traffic or the address stands on it. */
    method Retire(version: nat) returns (done: bool)
      modifies store, cluster
      ensures done == CanRetire(old(store.row), version)
      ensures View() == Retired(old(View()), version)
    {
      var target := Find(store.row.targets, version);
      if target.None? { return false; }
      if target.value.weight > 0 { return false; }
      if store.row.servingVersion == Some(version) { return false; }
      if target.value.k8sName.Some? {
        cluster.DeleteDeployment(target.value.k8sName.value);
      }
      store.RemoveTarget(version);
      return true;
    }
  }

  // --------------------------------------------------------- facts about the loops

  /** The versions a deploy takes out of rotation, in the order they are listed. */
  function Dropped(ts: seq<Target>, version: nat): (r: seq<nat>)
    ensures forall v :: v in r <==> exists t :: t in ts && t.version == v && v != version && t.weight > 0
  {
    if ts == [] then []
    else if ts[0].version != version && ts[0].weight > 0 then [ts[0].version] + Dropped(ts[1..], version)
    else Dropped(ts[1..], version)
  }

  /** The list after the first `n` entries have been visited by the zeroing loop. */
  function ZeroedPrefix(ts: seq<Target>, version: nat, n: nat): (r: seq<Target>)
    requires n <= |ts|
    ensures |r| == |ts|
    ensures forall i :: 0 <= i < |r| ==>
      r[i] == if ts[i].version != version && exists k :: 0 <= k < n && ts[k].version == ts[i].version
              then ts[i].(weight := 0) else ts[i]
  {
    seq(|ts|, i requires 0 <= i < |ts| =>
      if ts[i].version != version && exists k :: 0 <= k < n && ts[k].version == ts[i].version
      then ts[i].(weight := 0) else ts[i])
  }

  lemma ZeroedStep(ts: seq<Target>, version: nat, n: nat)
    requires n < |ts|
    ensures ZeroedPrefix(ts, version, n + 1)
         == if ts[n].version != version then WithWeights(ZeroedPrefix(ts, version, n), [Share(ts[n].version, 0)])
            else ZeroedPrefix(ts, version, n)
  {
    var one := [Share(ts[n].version, 0)];
    assert one[..0] == [];
    assert WithWeights(ZeroedPrefix(ts, version, n), one)
        == WithWeight(ZeroedPrefix(ts, version, n), ts[n].version, 0);
    assert ts[n].version == ts[n].version;
  }

  lemma ZeroedWhole(ts: seq<Target>, version: nat)
    ensures ZeroedPrefix(ts, version, |ts|) == ZeroedExcept(ts, version)
  {
    forall i | 0 <= i < |ts| ensures ZeroedPrefix(ts, version, |ts|)[i] == ZeroedExcept(ts, version)[i] {
      assert ts[i].version == ts[i].version;
    }
  }

  lemma FindIffServes(ts: seq<Target>, version: nat)
    ensures Find(ts, version).Some? <==> Serves(ts, version)
  {
    if Find(ts, version).Some? {
      assert Find(ts, version).value in ts;
    }
  }

  lemma DeletedAlso(c: State, names: set<string>, n: string)
    ensures WithoutNames(c, names + {n}) == Deleted(WithoutNames(c, names), n)
  {
    assert c.deployments - (names + {n}) == (c.deployments - names) - {n};
    assert c.services - (names + {n}) == (c.services - names) - {n};
  }

  lemma DoomedIff(w: World, n: string, existing: set<string>, keep: set<string>)
    requires existing == Listed(w.cluster, map[DeploymentId := w.row.id, Component := "model-server"])
    requires keep == Kept(w.row) && n in existing
    ensures n in Doomed(w) <==>
      !(ModelVersion in w.cluster.deployments[n].labels && w.cluster.deployments[n].labels[ModelVersion] in keep)
  {
    hide Kept, Listed;
  }

  /** The list after the first `n` versions have been observed. */
  function SeenSoFar(c: State, ts: seq<Target>, n: nat): (r: seq<Target>)
    requires n <= |ts|
    ensures |r| == |ts|
    ensures forall k :: 0 <= k < |r| ==> r[k] == if k < n then ObservedTarget(c, ts[k]) else ts[k]
  {
    seq(|ts|, k requires 0 <= k < |ts| => if k < n then ObservedTarget(c, ts[k]) else ts[k])
  }

  lemma SeenNone(c: State, ts: seq<Target>)
    ensures SeenSoFar(c, ts, 0) == ts && SeenSoFar(c, ts, |ts|) == ObservedTargets(c, ts)
    ensures TargetChanges(c, ts[..0]) == 0
  {
    hide ObservedTarget;
  }

  lemma NotedIs(c: State, t: Target)
    requires t.k8sName.Some?
    ensures ObservedTarget(c, t) == Noted(t, StatusFromObservation(Observed(c, t.k8sName.value), Some(t.status)))
  {
    hide StatusFromObservation;
  }

  lemma UnlaunchedIs(c: State, t: Target)
    requires t.k8sName.None?
    ensures ObservedTarget(c, t) == t
  {
  }

  lemma ChangesStep(c: State, ts: seq<Target>, n: nat)
    requires n < |ts|
    ensures TargetChanges(c, ts[..n + 1]) == TargetChanges(c, ts[..n]) + if ObservedTarget(c, ts[n]) != ts[n] then 1 else 0
  {
    hide ObservedTarget;
    assert ts[..n + 1][..n] == ts[..n];
  }

  lemma UnchangedOnce(c: State, ts: seq<Target>, n: nat)
    requires n < |ts| && ObservedTarget(c, ts[n]) == ts[n]
    ensures SeenSoFar(c, ts, n + 1) == SeenSoFar(c, ts, n)
  {
    hide ObservedTarget;
  }

  /** Recording one version's observation changes that version's entry and no other. */
  lemma RecordedOnce(c: State, ts: seq<Target>, n: nat, version: nat, v: Verdict<Option<string>>)
    requires Sorted(ts) && n < |ts| && ts[n].version == version && v.readyReplicas >= 0
    requires ObservedTarget(c, ts[n]) == Noted(ts[n], v)
    ensures WithObservation(SeenSoFar(c, ts, n), version, v) == SeenSoFar(c, ts, n + 1)
    ensures Noted(ts[n], v) == ts[n] ==> SeenSoFar(c, ts, n + 1) == SeenSoFar(c, ts, n)
  {
    hide ObservedTarget;
    var seen, next := SeenSoFar(c, ts, n), SeenSoFar(c, ts, n + 1);
    forall k | 0 <= k < |ts| ensures WithObservation(seen, version, v)[k] == next[k] {
      ObservedVersion(c, ts[k]);
      assert seen[k].version == ts[k].version;
    }
    if Noted(ts[n], v) == ts[n] { UnchangedOnce(c, ts, n); }
  }

  lemma WholeList(ts: seq<Target>)
    ensures ts[..|ts|] == ts
  {
  }

  lemma SeenStep(c: State, ts: seq<Target>, n: nat)
    requires Sorted(ts) && n < |ts|
    ensures SeenSoFar(c, ts, n + 1) ==
      if ObservedTarget(c, ts[n]) != ts[n] && ts[n].k8sName.Some?
      then WithObservation(SeenSoFar(c, ts, n), ts[n].version,
                           StatusFromObservation(Observed(c, ts[n].k8sName.value), Some(ts[n].status)))
      else SeenSoFar(c, ts, n)
  {
    hide SeenSoFar, ObservedTarget, StatusFromObservation, Observed;
    if ts[n].k8sName.None? {
      UnlaunchedIs(c, ts[n]);
      UnchangedOnce(c, ts, n);
    } else {
      NotedIs(c, ts[n]);
      RecordedOnce(c, ts, n, ts[n].version,
                   StatusFromObservation(Observed(c, ts[n].k8sName.value), Some(ts[n].status)));
    }
  }

  lemma ObservedVersion(c: State, t: Target)
    ensures ObservedTarget(c, t).version == t.version
  {
  }

  function RouterObserved(row: Row, c: State): Row {
    if row.routerName.None? then row
    else
      var v := StatusFromObservation(Observed(c, row.routerName.value), row.routerStatus);
      row.(routerStatus := Some(v.status), routerReady := v.readyReplicas)
  }

  lemma ObservedInTwoSteps(w: World, row: Row)
    requires row == RouterObserved(w.row.(targets := ObservedTargets(w.cluster, w.row.targets)), w.cluster)
    ensures row == ObservedRow(w)
  {
    hide ObservedTargets, StatusFromObservation;
  }

  /** Nothing between observing and judging touches the verdict on record. */
  lemma JudgedRowKeepsRecord(w: World)
    ensures var row := BeforeJudging(w).row;
      row.status == w.row.status && row.readyReplicas == w.row.readyReplicas && row.lastError == w.row.lastError
  {
    hide WillMove, DesiredFront, CurrentFront, ScaledDown, Doomed, ObservedTargets, StatusFromObservation, VersionOf;
  }

  lemma SameReplicas(row: Row, other: Row, t: Target)
    requires row.servingVersion == other.servingVersion
    ensures Replicas(row, t) == Replicas(other, t)
  {
  }
}
