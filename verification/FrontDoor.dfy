/**
 What a deployment's address should resolve to, and what every operation does about it
 (services/deployments.js, with the naming, label and replica rules of k8s/manifest.js).

 A `World` is one deployment's row together with the cluster. Each operation is given here
 as a function on worlds; `ControlPlane` performs the same operations step by step, and
 the theorems about them are in `FrontDoorSafety`, `FrontDoorConvergence` and
 `FrontDoorAnswering`.
 */
module FrontDoor {
  import opened Prelude
  import opened Names
  import opened Cluster
  import opened Routing
  import opened DeploymentRows

  const ROUTER_REPLICAS: nat := 2

  datatype World = World(row: Row, cluster: State)

  // ---------------------------------------------------------- names and labels

  function TName(row: Row, version: nat): string {
    TargetName(row.id, row.name, version)
  }

  function FName(row: Row): string {
    FrontName(row.id, row.name)
  }

  function RName(row: Row): string {
    RouterName(row.id, row.name)
  }

  function TargetSelector(id: string, version: nat): Labels {
    map[ManagedBy := MANAGED_BY, DeploymentId := id, ModelVersion := Decimal(version)]
  }

  function TargetLabels(id: string, version: nat): Labels {
    TargetSelector(id, version)[Component := "model-server"]
  }

  function RouterLabels(id: string): Labels {
    map[ManagedBy := MANAGED_BY, DeploymentId := id, Component := "model-router"]
  }

  /** The address selects one version's pods, or, with no version, the router's. */
  function FrontSelector(id: string, version: Option<nat>): Labels {
    match version
    case None => map[ManagedBy := MANAGED_BY, DeploymentId := id, Component := "model-router"]
    case Some(v) => map[ManagedBy := MANAGED_BY, DeploymentId := id, Component := "model-server",
                        ModelVersion := Decimal(v)]
  }

  // --------------------------------------------------------- where it should go

  datatype Front = NoFront | OnVersion(version: nat) | OnRouter

  function Serving(ts: seq<Target>): (r: seq<Target>)
    ensures forall t :: t in r <==> t in ts && t.weight > 0
  {
    if ts == [] then []
    else if ts[0].weight > 0 then [ts[0]] + Serving(ts[1..])
    else Serving(ts[1..])
  }

  /** A version while one takes traffic, the router as soon as two do. */
  function DesiredFront(row: Row): Front {
    var serving := Serving(row.targets);
    if serving == [] then NoFront
    else if |serving| > 1 then OnRouter
    else OnVersion(serving[0].version)
  }

  function CurrentFront(row: Row): Front {
    if row.k8sName.None? then NoFront
    else if row.servingVersion.Some? then OnVersion(row.servingVersion.value)
    else OnRouter
  }

  /** The version a front stands for; none for the router. */
  function VersionOf(f: Front): Option<nat> {
    if f.OnVersion? then Some(f.version) else None
  }

  function Find(ts: seq<Target>, version: nat): (r: Option<Target>)
    ensures r.Some? ==> r.value in ts && r.value.version == version
    ensures r.None? ==> !Serves(ts, version)
  {
    if ts == [] then None
    else if ts[0].version == version then Some(ts[0])
    else Find(ts[1..], version)
  }

  /** Whether what a front resolves to was last seen able to answer. */
  predicate FrontReady(row: Row, f: Front) {
    match f
    case OnRouter => row.routerReady > 0
    case OnVersion(v) => Find(row.targets, v).Some? && Find(row.targets, v).value.status == READY
    case NoFront => false
  }

  // ------------------------------------------------------------------ statuses

  const GONE: string := "the Kubernetes Deployment is gone from the cluster"

  predicate WasServing(previous: Option<Status>) {
    previous == Some(READY) || previous == Some(DEGRADED)
  }

  /** One version's status, from what the cluster reports about its pods. */
  function StatusFromObservation(o: Option<Observation>, previous: Option<Status>): (v: Verdict<Option<string>>)
    ensures v.readyReplicas >= 0
  {
    match o
    case None => Verdict(FAILED, 0, Some(GONE))
    case Some(Observation(desired, ready, reason, pendingReason)) =>
      if ready >= desired && desired > 0 then Verdict(READY, ready, None)
      else if desired == 0 then Verdict(STOPPED, ready, None)
      else if reason.Some? && reason.value != "" then Verdict(FAILED, ready, reason)
      else if WasServing(previous) then Verdict(DEGRADED, ready, pendingReason)
      else Verdict(PROGRESSING, ready, None)
  }

  function Mentions(ts: seq<Target>): seq<Mention> {
    seq(|ts|, i requires 0 <= i < |ts| => Mention(ts[i].version, ts[i].status, ts[i].lastError))
  }

  function ReadySum(ts: seq<Target>): int {
    if ts == [] then 0 else ts[0].readyReplicas + ReadySum(ts[1..])
  }

  function NotReady(ts: seq<Target>): (r: seq<Target>)
    ensures r == [] <==> forall t :: t in ts ==> t.status == READY
  {
    if ts == [] then []
    else if ts[0].status != READY then [ts[0]] + NotReady(ts[1..])
    else NotReady(ts[1..])
  }

  function Broken(ts: seq<Target>): (r: seq<Target>)
    ensures r == [] <==> forall t :: t in ts ==> t.status != FAILED && t.status != DEGRADED
  {
    if ts == [] then []
    else if ts[0].status == FAILED || ts[0].status == DEGRADED then [ts[0]] + Broken(ts[1..])
    else Broken(ts[1..])
  }

  /** The deployment's own status, from its versions' and from where its address points. */
  function RollUpStatus(ts: seq<Target>, frontReady: bool, inPlace: bool, previous: Status): Verdict<Explanation> {
    var serving := Serving(ts);
    var ready := ReadySum(serving);
    if serving == [] then Verdict(STOPPED, 0, AllWeightsZero)
    else if forall t <- serving :: t.status == FAILED then Verdict(FAILED, ready, AllFailed(Mentions(serving)))
    else if !frontReady then
      if WasServing(Some(previous)) then Verdict(DEGRADED, ready, NotAnswering(Mentions(NotReady(serving))))
      else Verdict(PROGRESSING, ready, NoError)
    else if Broken(serving) != [] then Verdict(DEGRADED, ready, PartlyBroken(Mentions(Broken(serving))))
    else if NotReady(serving) == [] && inPlace then Verdict(READY, ready, NoError)
    else Verdict(PROGRESSING, ready, NoError)
  }

  function Judge(row: Row, previous: Status): Verdict<Explanation> {
    RollUpStatus(row.targets, FrontReady(row, CurrentFront(row)), CurrentFront(row) == DesiredFront(row), previous)
  }

  // ------------------------------------------------------------- applying it

  /**
   How many pods a version is given: its own number while it takes traffic or is where the
   address points, otherwise none.
   */
  function Replicas(row: Row, t: Target): nat {
    if t.weight > 0 || row.servingVersion == Some(t.version) then t.replicas else 0
  }

  function LaunchTarget(w: World, t: Target): World {
    var name := TName(w.row, t.version);
    World(w.row.(targets := WithLaunch(w.row.targets, t.version, name)),
          ServiceApplied(Applied(w.cluster, name, Replicas(w.row, t), TargetLabels(w.row.id, t.version)),
                         name, TargetSelector(w.row.id, t.version)))
  }

  function LaunchAll(w: World, ts: seq<Target>): (r: World)
    ensures |r.row.targets| == |w.row.targets|
  {
    if ts == [] then w else LaunchTarget(LaunchAll(w, ts[..|ts| - 1]), ts[|ts| - 1])
  }

  function RouterApplied(w: World): World {
    if !DesiredFront(w.row).OnRouter? then w
    else World(if w.row.routerName == Some(RName(w.row)) then w.row else WithRouter(w.row, Some(RName(w.row))),
               Applied(w.cluster, RName(w.row), ROUTER_REPLICAS, RouterLabels(w.row.id)))
  }

  /** A deployment without an address gets one, on its desired front from the start. */
  function FrontCreated(w: World): World {
    if w.row.k8sName.Some? then w
    else
      var version := VersionOf(DesiredFront(w.row));
      World(w.row.(k8sName := Some(FName(w.row)), servingVersion := version),
            ServiceApplied(w.cluster, FName(w.row), FrontSelector(w.row.id, version)))
  }

  function Judged(w: World, previous: Status): World {
    w.(row := WithVerdict(w.row, Judge(w.row, previous)))
  }

  /** A router that is neither wanted nor selected is taken down. */
  function RouterRemoved(w: World): World {
    if w.row.routerName.None? || DesiredFront(w.row).OnRouter? || CurrentFront(w.row).OnRouter? then w
    else World(WithRouter(w.row, None), Deleted(w.cluster, w.row.routerName.value))
  }

  function Kept(row: Row): set<string> {
    (set t | t in row.targets :: Decimal(t.version))
    + (if row.servingVersion.Some? then {Decimal(row.servingVersion.value)} else {})
  }

  /** Objects of versions the deployment neither serves nor resolves to. */
  function Doomed(w: World): set<string> {
    set n | n in Listed(w.cluster, map[DeploymentId := w.row.id, Component := "model-server"])
            && !(ModelVersion in w.cluster.deployments[n].labels
                 && w.cluster.deployments[n].labels[ModelVersion] in Kept(w.row))
  }

  function WithoutNames(c: State, names: set<string>): State {
    State(c.deployments - names, c.services - names)
  }

  function Reaped(w: World): World {
    w.(cluster := WithoutNames(w.cluster, Doomed(w)))
  }

  /** Everything an apply does once the versions are launched. */
  function Settled(w: World, previous: Status): World {
    Reaped(RouterRemoved(Judged(FrontCreated(RouterApplied(w)), previous)))
  }

  /**
   Makes the cluster match the row. With a split to route and no address of the control
   plane to give the router, it stops after launching the versions.
   */
  function ApplyDesiredState(w: World, apiUrl: bool): World {
    var launched := LaunchAll(w, w.row.targets);
    if DesiredFront(launched.row).OnRouter? && !apiUrl then launched
    else Settled(launched, w.row.status)
  }

  // --------------------------------------------------------------- operations

  function ZeroedExcept(ts: seq<Target>, version: nat): (r: seq<Target>)
    ensures |r| == |ts|
    ensures forall i :: 0 <= i < |r| ==>
      r[i] == if ts[i].version != version then ts[i].(weight := 0) else ts[i]
  {
    seq(|ts|, i requires 0 <= i < |ts| => if ts[i].version != version then ts[i].(weight := 0) else ts[i])
  }

  function DeployedRow(row: Row, version: nat, replicas: nat): Row {
    row.(replicas := replicas, targets := Upserted(ZeroedExcept(row.targets, version), version, TOTAL_WEIGHT, replicas))
  }

  /** The split a rollout starts from: the row's, plus the named version at 0 if it is new. */
  function RolloutBase(ts: seq<Target>, version: nat): (r: seq<Share>)
    ensures InRange(Split(ts)) ==> InRange(r)
  {
    if Serves(ts, version) then Split(ts) else Split(ts) + [Share(version, 0)]
  }

  function RolledOutRow(row: Row, version: nat, traffic: int): Row
    requires InRange(Split(row.targets))
  {
    var targets := if Serves(row.targets, version) then row.targets
                   else Upserted(row.targets, version, 0, row.replicas);
    row.(targets := WithWeights(targets, ApplyRollout(RolloutBase(row.targets, version), version, traffic)))
  }

  predicate CanRetire(row: Row, version: nat) {
    && Find(row.targets, version).Some?
    && Find(row.targets, version).value.weight <= 0
    && row.servingVersion != Some(version)
  }

  function Retired(w: World, version: nat): World {
    if !CanRetire(w.row, version) then w
    else
      var name := Find(w.row.targets, version).value.k8sName;
      World(w.row.(targets := Removed(w.row.targets, version)),
            if name.Some? then Deleted(w.cluster, name.value) else w.cluster)
  }

  // --------------------------------------------------------------- one sync pass

  function ObservedTarget(c: State, t: Target): Target {
    if t.k8sName.None? then t
    else Noted(t, StatusFromObservation(Observed(c, t.k8sName.value), Some(t.status)))
  }

  function ObservedTargets(c: State, ts: seq<Target>): (r: seq<Target>)
    ensures |r| == |ts|
    ensures forall i :: 0 <= i < |r| ==> r[i] == ObservedTarget(c, ts[i])
  {
    seq(|ts|, i requires 0 <= i < |ts| => ObservedTarget(c, ts[i]))
  }

  /** The row with what one pass observes of its versions and its router. */
  function ObservedRow(w: World): Row {
    var row := w.row.(targets := ObservedTargets(w.cluster, w.row.targets));
    if row.routerName.None? then row
    else
      var v := StatusFromObservation(Observed(w.cluster, row.routerName.value), row.routerStatus);
      row.(routerStatus := Some(v.status), routerReady := v.readyReplicas)
  }

  /** The address moves only when it should, and only onto pods seen ready in this pass. */
  predicate WillMove(row: Row) {
    var wanted := DesiredFront(row);
    wanted != NoFront && wanted != CurrentFront(row) && FrontReady(row, wanted)
  }

  function Moved(w: World): World {
    var version := VersionOf(DesiredFront(w.row));
    World(w.row.(servingVersion := version),
          if w.row.k8sName.Some?
          then SelectorPatched(w.cluster, w.row.k8sName.value, FrontSelector(w.row.id, version)) else w.cluster)
  }

  predicate OutOfRotation(row: Row, t: Target) {
    t.weight == 0 && row.servingVersion != Some(t.version) && t.k8sName.Some?
  }

  /** Versions nothing resolves to any more are scaled to nothing. */
  function ScaledDown(w: World, ts: seq<Target>): State {
    if ts == [] then w.cluster
    else
      var t := ts[|ts| - 1];
      var c := ScaledDown(w, ts[..|ts| - 1]);
      if OutOfRotation(w.row, t)
      then Applied(c, TName(w.row, t.version), Replicas(w.row, t), TargetLabels(w.row.id, t.version)) else c
  }

  function AfterMove(w: World): World {
    Reaped(RouterRemoved(w.(cluster := ScaledDown(w, w.row.targets))))
  }

  predicate Active(row: Row) {
    row.status != STOPPED && row.k8sName.Some?
  }

  function Synced(w: World): World {
    if !Active(w.row) then w
    else
      Judged(BeforeJudging(w), w.row.status)
  }

  // How many records a pass writes observations into.

  function TargetChanges(c: State, ts: seq<Target>): nat {
    if ts == [] then 0
    else
      var t := ts[|ts| - 1];
      TargetChanges(c, ts[..|ts| - 1]) + if ObservedTarget(c, t) != t then 1 else 0
  }

  function RouterChanges(row: Row, seen: Row): nat {
    if seen.routerStatus != row.routerStatus || seen.routerReady != row.routerReady then 1 else 0
  }

  function VerdictChanges(row: Row, v: Verdict<Explanation>): nat {
    if v.status != row.status || v.readyReplicas != row.readyReplicas || v.lastError != row.lastError then 1 else 0
  }

  /** The row and cluster a pass judges: after observing, and after any move. */
  function BeforeJudging(w: World): World {
    var seen := w.(row := ObservedRow(w));
    if WillMove(seen.row) then AfterMove(Moved(seen)) else seen
  }

  function Changes(w: World): nat {
    if !Active(w.row) then 0
    else
      TargetChanges(w.cluster, w.row.targets) + RouterChanges(w.row, ObservedRow(w))
      + VerdictChanges(w.row, Judge(BeforeJudging(w).row, w.row.status))
  }

  // --------------------------------------------------------------------- runs

  /**
   One atomic step. `admitted` stands for what the registry says of the version: that it
   exists and may be served. The environment changes readiness and other deployments'
   objects, never what this deployment asked for.
   */
  datatype Step =
    | Deploy(version: nat, replicas: nat, admitted: bool, apiUrl: bool)
    | Rollout(version: nat, traffic: int, admitted: bool, apiUrl: bool)
    | Retire(version: nat)
    | Sync
    | Environment(cluster: State)

  predicate Exists(row: Row) {
    row.targets != []
  }

  function Deployed(w: World, version: nat, replicas: nat, admitted: bool, apiUrl: bool): World {
    if replicas < 1 || !admitted then w
    else ApplyDesiredState(w.(row := DeployedRow(w.row, version, replicas)), apiUrl)
  }

  function RolledOut(w: World, version: nat, traffic: int, admitted: bool, apiUrl: bool): World {
    if traffic < 0 || traffic > TOTAL_WEIGHT || !Exists(w.row) || !InRange(Split(w.row.targets)) then w
    else if !Serves(w.row.targets, version) && !admitted then w
    else ApplyDesiredState(w.(row := RolledOutRow(w.row, version, traffic)), apiUrl)
  }

  function Next(w: World, step: Step): World {
    match step
    case Deploy(version, replicas, admitted, apiUrl) => Deployed(w, version, replicas, admitted, apiUrl)
    case Rollout(version, traffic, admitted, apiUrl) => RolledOut(w, version, traffic, admitted, apiUrl)
    case Retire(version) => Retired(w, version)
    case Sync => Synced(w)
    case Environment(cluster) => w.(cluster := cluster)
  }

  function Run(w: World, steps: seq<Step>): World {
    if steps == [] then w else Next(Run(w, steps[..|steps| - 1]), steps[|steps| - 1])
  }
}
