/**
 Whether a request to the address is answered by a model.

 An address that stands on the router answers only if the router has somewhere to forward
 to. The replica rule spares the version the address resolves to, and while that is the
 router it spares no version, so a deploy over a split scales the versions behind the
 router to nothing at once. The endpoint-level guarantee of `FrontDoorRuns` is therefore
 not the whole of it: here, for every operation, is the exact condition under which requests
 go on reaching a model, and in `FrontDoorLosses` are runs on which they do not.
 */
module FrontDoorAnswering {
  import opened Prelude
  import opened Names
  import opened Cluster
  import opened Apportionment
  import opened Routing
  import opened DeploymentRows
  import opened FrontDoor
  import opened FrontDoorSafety
  import opened FrontDoorRuns
  import opened FrontDoorConvergence

  /** Some version that takes traffic has a pod ready. */
  ghost predicate SomeServedReady(row: Row, c: State) {
    exists t :: t in row.targets && t.weight > 0 && ReadyAt(c, TName(row, t.version)) > 0
  }

  /** A request to the address reaches a model. */
  ghost predicate Reaches(w: World) {
    && w.row.k8sName.Some?
    && ReadyAt(w.cluster, FrontPods(w.row)) > 0
    && (w.row.servingVersion.Some? || SomeServedReady(w.row, w.cluster))
  }

  // ------------------------------------------- readiness of a version in rotation

  lemma SettledKeepsReady(w: World, previous: Status, v: nat)
    requires Launched(w) && Serves(w.row.targets, v)
    ensures ReadyAt(Settled(w, previous).cluster, TName(w.row, v)) == ReadyAt(w.cluster, TName(w.row, v))
  {
    hide RouterApplied, FrontCreated, Judged, Settings, Named, AllPodsWanted, FrontInStep, RouterInStep,
         RouterJustified, Tidy, DesiredFront, TargetName, RouterName, Serves, RouterRemoved, Reaped;
    RouterStage(w);
    var routed := RouterApplied(w);
    FrontStage(routed);
    var placed := FrontCreated(routed);
    JudgeStage(placed, previous);
    var judged := Judged(placed, previous);
    RemovalStage(judged);
    var removed := RouterRemoved(judged);
    StagesKeepNames(w, previous);
    assert removed.row.targets == w.row.targets;
    assert TName(removed.row, v) == TName(w.row, v);
    OtherPodsUnchanged(w, v);
    RemovedPodsUnchanged(judged, v);
    PlacedFacts(removed);
    ReapingSpares(removed, TName(removed.row, v));
    ReapedPodsUnchanged(removed, TName(removed.row, v));
  }

  lemma StagesKeepNames(w: World, previous: Status)
    ensures var removed := RouterRemoved(Judged(FrontCreated(RouterApplied(w)), previous));
      removed.row.id == w.row.id && removed.row.name == w.row.name
    ensures var judged := Judged(FrontCreated(RouterApplied(w)), previous);
      && judged.row.id == w.row.id && judged.row.name == w.row.name
      && judged.cluster == FrontCreated(RouterApplied(w)).cluster
  {
    hide Judge, DesiredFront, VersionOf;
  }

  lemma OtherPodsUnchanged(w: World, v: nat)
    ensures ReadyAt(FrontCreated(RouterApplied(w)).cluster, TName(w.row, v)) == ReadyAt(w.cluster, TName(w.row, v))
  {
    hide TargetName, RouterName, FrontName, DesiredFront, VersionOf, RouterLabels, FrontSelector;
    NamesApart(w.row, v, v);
  }

  lemma RemovedPodsUnchanged(w: World, v: nat)
    requires RouterInStep(w.row, w.cluster)
    ensures ReadyAt(RouterRemoved(w).cluster, TName(w.row, v)) == ReadyAt(w.cluster, TName(w.row, v))
  {
    hide TargetName, RouterName, DesiredFront;
    NamesApart(w.row, v, v);
  }

  lemma ReapedPodsUnchanged(w: World, n: string)
    requires n !in Doomed(w)
    ensures ReadyAt(Reaped(w).cluster, n) == ReadyAt(w.cluster, n)
  {
    hide Doomed;
  }

  /** An apply leaves a version in rotation ready exactly if it was. */
  lemma ApplyKeepsServedReady(w: World, apiUrl: bool, t: Target)
    requires Pending(w) && t in w.row.targets && t.weight > 0
    ensures ReadyAt(ApplyDesiredState(w, apiUrl).cluster, TName(w.row, t.version)) > 0
      <==> ReadyAt(w.cluster, TName(w.row, t.version)) > 0
  {
    hide LaunchAll, Settled, DesiredFront, TargetName, TargetLabels, RouterInStep, FrontInStep, FrontAbsent, Tidy,
         ValidId, ValidSplit, Launched;
    var launched := LaunchAll(w, w.row.targets);
    LaunchStage(w);
    LaunchKeepsRow(w, w.row.targets);
    LaunchedAt(w, w.row.targets, t);
    assert ReadyAt(launched.cluster, TName(w.row, t.version)) > 0 <==> ReadyAt(w.cluster, TName(w.row, t.version)) > 0;
    SameTargetsFacts(w.row, launched.row);
    assert Serves(w.row.targets, t.version);
    assert TName(launched.row, t.version) == TName(w.row, t.version);
    SettledKeepsReady(launched, w.row.status, t.version);
  }

  lemma SameServedReady(row: Row, other: Row, c: State, d: State)
    requires SameTargets(row.targets, other.targets) && row.id == other.id && row.name == other.name
    requires forall t :: t in row.targets && t.weight > 0 ==>
      (ReadyAt(c, TName(row, t.version)) > 0 <==> ReadyAt(d, TName(row, t.version)) > 0)
    ensures SomeServedReady(row, c) <==> SomeServedReady(other, d)
  {
    hide TargetName, ReadyAt;
    if SomeServedReady(row, c) {
      var t :| t in row.targets && t.weight > 0 && ReadyAt(c, TName(row, t.version)) > 0;
      var i :| 0 <= i < |row.targets| && row.targets[i] == t;
      assert other.targets[i] in other.targets && TName(other, t.version) == TName(row, t.version);
    }
    if SomeServedReady(other, d) {
      var t :| t in other.targets && t.weight > 0 && ReadyAt(d, TName(other, t.version)) > 0;
      var i :| 0 <= i < |row.targets| && other.targets[i] == t;
      assert row.targets[i] in row.targets && TName(other, t.version) == TName(row, t.version);
    }
  }

  /** Exactly when the address goes on reaching a model across an apply. */
  lemma ApplyReaches(w: World, row: Row, apiUrl: bool)
    requires Live(w) && Reaches(w) && Pending(w.(row := row))
    requires row == w.row.(replicas := row.replicas, targets := row.targets)
    ensures Reaches(ApplyDesiredState(w.(row := row), apiUrl))
      <==> w.row.servingVersion.Some? || SomeServedReady(row, w.cluster)
  {
    hide ApplyDesiredState, Live, Pending, ReadyAt, TargetName, RouterName, SomeServedReady;
    var asked := w.(row := row);
    ApplyMakesLive(asked, apiUrl);
    ApplyKeepsFrontReady(asked, apiUrl);
    ApplyKeepsNames(asked, apiUrl);
    var after := ApplyDesiredState(asked, apiUrl);
    LiveAnswers(after);
    forall t | t in row.targets && t.weight > 0
      ensures ReadyAt(w.cluster, TName(row, t.version)) > 0 <==> ReadyAt(after.cluster, TName(row, t.version)) > 0
    {
      ApplyKeepsServedReady(asked, apiUrl, t);
    }
    assert SameTargets(row.targets, after.row.targets);
    SameServedReady(row, after.row, w.cluster, after.cluster);
  }

  // ------------------------------------------------------------------ theorems

  /**
   A deploy keeps the address reaching a model exactly when the address stands on a version,
   or the version being deployed already has a pod ready.
   */
  lemma DeployReaches(w: World, version: nat, replicas: nat, apiUrl: bool)
    requires Live(w) && Reaches(w) && replicas >= 1
    ensures Reaches(Deployed(w, version, replicas, true, apiUrl))
      <==> w.row.servingVersion.Some? || ReadyAt(w.cluster, TName(w.row, version)) > 0
  {
    hide ApplyDesiredState, Live, Pending, Reaches, ReadyAt, TargetName, Upserted;
    var row := DeployedRow(w.row, version, replicas);
    DeployIsPending(w, version, replicas);
    ApplyReaches(w, row, apiUrl);
    LiveSorted(w);
    var zeroed := ZeroedExcept(w.row.targets, version);
    UpsertedMembers(zeroed, version, TOTAL_WEIGHT, replicas);
    DeployedServing(w.row, version, replicas);
  }

  lemma LiveSorted(w: World)
    requires Live(w)
    ensures Sorted(w.row.targets) && InRange(Split(w.row.targets))
  {
  }

  /** After a deploy the named version is the only one in rotation. */
  lemma DeployedServing(row: Row, version: nat, replicas: nat)
    requires Sorted(row.targets)
    ensures forall t :: t in DeployedRow(row, version, replicas).targets ==> (t.weight > 0 <==> t.version == version)
    ensures Serves(DeployedRow(row, version, replicas).targets, version)
    ensures forall v :: TName(DeployedRow(row, version, replicas), v) == TName(row, v)
  {
    hide Upserted, TargetName;
    var zeroed := ZeroedExcept(row.targets, version);
    UpsertedMembers(zeroed, version, TOTAL_WEIGHT, replicas);
    var ts := DeployedRow(row, version, replicas).targets;
    forall t | t in ts ensures t.weight > 0 <==> t.version == version {
      if t.version != version {
        var i :| 0 <= i < |zeroed| && zeroed[i] == t;
      }
    }
  }

  /**
   A rollout keeps the address reaching a model exactly when the address stands on a
   version, or some version of the new split already has a pod ready.
   */
  lemma RolloutReaches(w: World, version: nat, traffic: int, apiUrl: bool)
    requires Live(w) && Reaches(w) && 0 <= traffic <= TOTAL_WEIGHT
    ensures InRange(Split(w.row.targets))
    ensures Reaches(RolledOut(w, version, traffic, true, apiUrl))
      <==> w.row.servingVersion.Some? || SomeServedReady(RolledOutRow(w.row, version, traffic), w.cluster)
  {
    hide ApplyDesiredState, Live, Pending, Reaches, SomeServedReady, RolledOutRow;
    LiveSorted(w);
    LiveExists(w);
    RolloutIsPending(w, version, traffic);
    RolledOutRowShape(w.row, version, traffic);
    ApplyReaches(w, RolledOutRow(w.row, version, traffic), apiUrl);
  }

  lemma RolledOutRowShape(row: Row, version: nat, traffic: int)
    requires InRange(Split(row.targets))
    ensures var r := RolledOutRow(row, version, traffic); r == row.(replicas := r.replicas, targets := r.targets)
  {
    hide ApplyRollout, WithWeights, Upserted;
  }

  lemma LiveExists(w: World)
    requires Live(w)
    ensures Exists(w.row)
  {
    NonEmptySplit(w.row.targets);
  }

  /** A retirement never takes away what a request reaches. */
  lemma RetireReaches(w: World, version: nat)
    requires Live(w) && Reaches(w)
    ensures Reaches(Retired(w, version))
  {
    hide Live, ReadyAt, TargetName, Find;
    RetireKeepsLive(w, version);
    RetiredFront(w, version);
    if CanRetire(w.row, version) && w.row.servingVersion.None? {
      var t :| t in w.row.targets && t.weight > 0 && ReadyAt(w.cluster, TName(w.row, t.version)) > 0;
      RetiredSpares(w, version, t);
    }
  }

  lemma RetiredSpares(w: World, version: nat, t: Target)
    requires Live(w) && CanRetire(w.row, version) && t in w.row.targets && t.weight > 0
    ensures t in Retired(w, version).row.targets
    ensures ReadyAt(Retired(w, version).cluster, TName(w.row, t.version)) == ReadyAt(w.cluster, TName(w.row, t.version))
  {
    hide TargetName, RouterName, FrontName, Tidy, RouterInStep, FrontInStep, ValidSplit, ValidId, AllPodsWanted;
    var gone := Find(w.row.targets, version).value;
    if t.version == version {
      SortedUnique(w.row.targets, t, gone);
    }
    NamesApart(w.row, version, t.version);
  }

  // ---------------------------------------------------------- across a sync pass

  lemma AfterMoveSparesServed(w: World, t: Target)
    requires Shifted(w) && t in w.row.targets && t.weight > 0
    ensures ReadyAt(AfterMove(w).cluster, TName(w.row, t.version)) == ReadyAt(w.cluster, TName(w.row, t.version))
  {
    hide TargetName, RouterName, FrontName, ScaledDown, Tidy, FrontInStep, ValidId, ValidSplit, PodsWanted,
         Serving, Reaped, RouterRemoved, ReadyAt;
    forall u | u in w.row.targets && OutOfRotation(w.row, u) ensures TName(w.row, t.version) != TName(w.row, u.version) {
      NamesApart(w.row, t.version, u.version);
      if t.version == u.version { SortedUnique(w.row.targets, t, u); }
    }
    ScaledDownElsewhere(w, w.row.targets, TName(w.row, t.version));
    ScaleDownStage(w);
    var scaled := w.(cluster := ScaledDown(w, w.row.targets));
    SameReadyAt(w.cluster, scaled.cluster, TName(w.row, t.version));
    RemovedPodsUnchanged(scaled, t.version);
    RemovalStage(scaled);
    var removed := RouterRemoved(scaled);
    RemovedKeepsNames(scaled);
    PlacedFacts(removed);
    assert Serves(removed.row.targets, t.version);
    ReapingSpares(removed, TName(removed.row, t.version));
    ReapedPodsUnchanged(removed, TName(removed.row, t.version));
  }

  lemma SameReadyAt(c: State, d: State, n: string)
    requires n in c.deployments <==> n in d.deployments
    requires n in c.deployments ==> c.deployments[n] == d.deployments[n]
    ensures ReadyAt(c, n) == ReadyAt(d, n)
  {
  }

  lemma RemovedKeepsNames(w: World)
    ensures RouterRemoved(w).row.id == w.row.id && RouterRemoved(w).row.name == w.row.name
  {
    hide DesiredFront;
  }

  lemma SyncKeepsServedReady(w: World)
    requires Live(w)
    ensures SomeServedReady(Synced(w).row, Synced(w).cluster) <==> SomeServedReady(w.row, w.cluster)
  {
    hide Live, ObservedRow, WillMove, AfterMove, Moved, Judge, TargetName, RouterName, Shifted, ReadyAt,
         SomeServedReady, DesiredFront;
    LiveIsActive(w);
    ObservationKeepsLive(w);
    SyncKeepsNames(w);
    var seen := w.(row := ObservedRow(w));
    var after := BeforeJudging(w);
    if WillMove(seen.row) {
      MoveIsReady(w);
      MoveStage(seen);
      MovedDeployments(seen);
      AfterMoveStage(Moved(seen));
      forall t | t in Moved(seen).row.targets && t.weight > 0
        ensures ReadyAt(after.cluster, TName(w.row, t.version)) == ReadyAt(w.cluster, TName(w.row, t.version))
      {
        SameReadyAt(w.cluster, Moved(seen).cluster, TName(w.row, t.version));
        AfterMoveSparesServed(Moved(seen), t);
      }
    }
    assert Synced(w).row.targets == seen.row.targets;
    SameServedReady(Synced(w).row, w.row, Synced(w).cluster, w.cluster);
  }

  /** The address is on a version, and the router that should have it has a pod ready. */
  ghost predicate MovesOntoRouter(w: World) {
    w.row.servingVersion.Some? && DesiredFront(w.row).OnRouter? && ReadyAt(w.cluster, RName(w.row)) > 0
  }

  lemma MovesOntoRouterWhen(w: World)
    requires Live(w)
    ensures WillMove(ObservedRow(w)) && DesiredFront(ObservedRow(w)).OnRouter? <==> MovesOntoRouter(w)
    ensures WillMove(ObservedRow(w)) ==> !DesiredFront(ObservedRow(w)).NoFront?
  {
    hide Tidy, AllPodsWanted, Named, RouterJustified, TargetName, RouterName, ObservedTargets, DesiredFront;
    ObservedTargetsWanted(w);
  }

  lemma ObservedTargetsWanted(w: World)
    requires Live(w)
    ensures DesiredFront(ObservedRow(w)) == DesiredFront(w.row)
  {
    hide Live, DesiredFront;
    ObservationKeepsLive(w);
    SameTargetsFacts(ObservedRow(w), w.row);
  }

  /**
   A sync pass keeps the address reaching a model, except exactly when it moves it from a
   version onto a ready router while no version in rotation has a pod ready.
   */
  lemma SyncReaches(w: World)
    requires Live(w) && Reaches(w)
    ensures Reaches(Synced(w)) <==> !(MovesOntoRouter(w) && !SomeServedReady(w.row, w.cluster))
  {
    hide Live, Synced, ReadyAt, SomeServedReady, FrontPods, WillMove, ObservedRow, MovesOntoRouter, DesiredFront;
    SyncKeepsLive(w);
    SyncKeepsServedReady(w);
    LiveAnswers(w);
    LiveAnswers(Synced(w));
    LiveIsActive(w);
    MovesOntoRouterWhen(w);
    if !WillMove(ObservedRow(w)) { StaysPutWithoutMove(w); }
  }

  /** So no pass loses the model of an address whose router is ready only while it has somewhere to forward to. */
  lemma SyncReachesBehindProbe(w: World)
    requires Live(w) && Reaches(w)
    requires ReadyAt(w.cluster, RName(w.row)) > 0 ==> SomeServedReady(w.row, w.cluster)
    ensures Reaches(Synced(w))
  {
    hide Live, Synced, Reaches, ReadyAt, SomeServedReady, DesiredFront;
    SyncReaches(w);
  }
}
