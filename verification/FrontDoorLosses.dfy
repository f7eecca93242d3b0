/**
 Runs of ordinary operations, and of pods becoming ready, on which requests to an address
 reach a model until one further step, and then reach none: a deploy or a rollout over a
 split, and a sync pass onto a router with nothing ready behind it. The conditions under which
 none of these happens are in `FrontDoorAnswering`.
 */
module FrontDoorLosses {
  import opened Prelude
  import opened Names
  import opened Cluster
  import opened Apportionment
  import opened Routing
  import opened DeploymentRows
  import opened FrontDoor
  import opened FrontDoorSafety
  import opened FrontDoorRuns
  import opened FrontDoorConvergence
  import opened FrontDoorAnswering

  // ------------------------------------------------------------- reaching a state

  /** The environment brings every pod that is wanted up. */
  function AllUp(w: World): World {
    w.(cluster := w.cluster.(deployments := map n | n in w.cluster.deployments ::
         w.cluster.deployments[n].(ready := w.cluster.deployments[n].desired)))
  }

  lemma AllUpAllowed(w: World)
    requires Live(w)
    ensures EnvironmentStep(w, AllUp(w).cluster)
  {
    hide TargetName, RouterName, FrontName, Settings, RouterInStep, FrontInStep, TargetLabels, RouterLabels;
    var c := AllUp(w).cluster;
    forall n | n in c.deployments && Owned(w.row.id, c.deployments[n].labels)
      ensures OwnEntry(w.row, n, c.deployments[n].labels)
    {
      assert OwnEntry(w.row, n, w.cluster.deployments[n].labels);
    }
  }

  lemma AllUpSteady(w: World)
    requires Live(w) && (DesiredFront(w.row).OnRouter? ==> w.row.routerName.Some?)
    ensures Steady(AllUp(w))
  {
    hide TargetName, RouterName, FrontName, Settings, FrontInStep, TargetLabels, RouterLabels, DesiredFront, Tidy,
         FrontName;
    AllUpAllowed(w);
    EnvironmentKeepsInv(w, AllUp(w).cluster);
    LiveNotFresh(w, AllUp(w));
    forall t | t in w.row.targets ensures AllReady(AllUp(w).cluster, TName(w.row, t.version)) {
      assert PodsWanted(w.row, w.cluster, t);
    }
  }

  lemma LiveNotFresh(w: World, u: World)
    requires Live(w) && u.row == w.row && Inv(u)
    ensures Live(u)
  {
    LiveExists(w);
  }

  ghost predicate Reachable(start: World, w: World) {
    exists steps ::
      && (forall k :: 0 <= k < |steps| ==> Allowed(Run(start, steps[..k]), steps[k]))
      && Run(start, steps) == w
  }

  lemma ReachableStart(w: World)
    ensures Reachable(w, w)
  {
    var none: seq<Step> := [];
    assert Run(w, none) == w;
  }

  lemma ReachableStep(start: World, w: World, step: Step)
    requires Reachable(start, w) && Allowed(w, step)
    ensures Reachable(start, Next(w, step))
  {
    hide Allowed, Next;
    var steps :| (forall k :: 0 <= k < |steps| ==> Allowed(Run(start, steps[..k]), steps[k])) && Run(start, steps) == w;
    var longer := steps + [step];
    assert longer[..|steps|] == steps;
    forall k | 0 <= k < |longer| ensures Allowed(Run(start, longer[..k]), longer[k]) {
      assert longer[..k] == if k < |steps| then steps[..k] else steps;
      if k < |steps| { assert Allowed(Run(start, steps[..k]), steps[k]); }
    }
    assert Run(start, longer) == Next(w, step);
  }

  /** Some version has no object in the cluster: there are more versions than objects. */
  lemma UnusedVersion(row: Row, c: State) returns (v: nat)
    ensures TName(row, v) !in c.deployments
  {
    hide TargetName;
    var n := |c.deployments| + 1;
    var names := TakenNames(row, n);
    if forall u: nat :: u < n ==> TName(row, u) in c.deployments {
      assert names <= c.deployments.Keys;
      SubsetSize(names, c.deployments.Keys);
    }
    v :| v < n && TName(row, v) !in c.deployments;
  }

  lemma {:induction false} TakenNames(row: Row, n: nat) returns (names: set<string>)
    ensures |names| == n
    ensures forall s :: s in names <==> exists v: nat :: v < n && s == TName(row, v)
  {
    hide TargetName;
    if n == 0 {
      names := {};
    } else {
      var fewer := TakenNames(row, n - 1);
      forall v: nat | v < n - 1 ensures TName(row, v) != TName(row, n - 1) {
        NamesApart(row, v, n - 1);
      }
      names := fewer + {TName(row, n - 1)};
    }
  }

  lemma {:induction false} SoleWeight(ts: seq<Target>, t: Target)
    requires t in ts && Sorted(ts) && forall u :: u in ts ==> u.weight >= 0 && (u.weight > 0 ==> u.version == t.version)
    ensures Sum(Weights(Split(ts))) == t.weight
  {
    hide Sum, Weights, Split;
    assert ts == [ts[0]] + ts[1..];
    SplitCons(ts[0], ts[1..]);
    if ts[0].version == t.version {
      SortedUnique(ts, ts[0], t);
      forall u | u in ts[1..] ensures u.weight == 0 {
        var i :| 1 <= i < |ts| && ts[i] == u;
      }
      NoWeight(ts[1..]);
    } else {
      SoleWeight(ts[1..], t);
    }
  }

  lemma {:induction false} NoWeight(ts: seq<Target>)
    requires forall u :: u in ts ==> u.weight == 0
    ensures Sum(Weights(Split(ts))) == 0
  {
    forall i | 0 <= i < |ts| ensures Weights(Split(ts))[i] == 0 {
      assert ts[i] in ts;
    }
    AllZeroSum(Weights(Split(ts)));
  }

  /** A version with a share strictly between nothing and everything leaves a split to route. */
  lemma PartialShareNeedsRouter(row: Row, t: Target)
    requires Settings(row) && t in row.targets && 0 < t.weight < TOTAL_WEIGHT
    ensures DesiredFront(row).OnRouter?
  {
    NeverJudgedStopped(row, READY);
    if DesiredFront(row).OnVersion? {
      SoleServing(row);
      forall u | u in row.targets ensures u.weight >= 0 && (u.weight > 0 ==> u.version == t.version) {
        var i :| 0 <= i < |row.targets| && row.targets[i] == u;
        assert Split(row.targets)[i].weight >= 0;
      }
      hide DesiredFront;
      SoleWeight(row.targets, t);
    }
  }

  /** An apply that can give the router an address creates the router a split needs. */
  lemma ApplyCreatesRouter(w: World)
    requires Pending(w)
    ensures DesiredFront(ApplyDesiredState(w, true).row).OnRouter? ==> ApplyDesiredState(w, true).row.routerName.Some?
  {
    hide LaunchAll, RouterApplied, FrontCreated, Judged, RouterRemoved, Reaped, Settings, Named, AllPodsWanted,
         FrontInStep, RouterInStep, Tidy, DesiredFront, FrontPods, ReadyAt, SameTargets;
    LaunchStage(w);
    var launched := LaunchAll(w, w.row.targets);
    RouterStage(launched);
    var routed := RouterApplied(launched);
    FrontStage(routed);
    var placed := FrontCreated(routed);
    JudgeStage(placed, w.row.status);
    var judged := Judged(placed, w.row.status);
    JudgedKeepsRouter(placed, w.row.status);
    RemovalStage(judged);
    if DesiredFront(judged.row).OnRouter? { RemovalKeepsWanted(judged); }
    SameDesiredFront(RouterRemoved(judged).row, judged.row);
    SameDesiredFront(placed.row, routed.row);
    SameDesiredFront(launched.row, routed.row);
    ReapedRow(RouterRemoved(judged));
  }

  lemma JudgedKeepsRouter(w: World, previous: Status)
    ensures Judged(w, previous).row.routerName == w.row.routerName
  {
    hide Judge;
  }

  lemma RemovalKeepsWanted(w: World)
    requires DesiredFront(w.row).OnRouter?
    ensures RouterRemoved(w) == w
  {
  }

  lemma ReapedRow(w: World)
    ensures Reaped(w).row == w.row
  {
  }

  /** A step that brings everything up, from a live deployment whose router exists if wanted. */
  lemma BringUp(start: World, w: World) returns (up: World)
    requires Reachable(start, w) && Live(w) && (DesiredFront(w.row).OnRouter? ==> w.row.routerName.Some?)
    ensures Reachable(start, up) && Steady(up) && up.row == w.row
  {
    hide Live, DesiredFront, EnvironmentStep, Reachable, Steady;
    up := AllUp(w);
    AllUpAllowed(w);
    AllUpSteady(w);
    ReachableStep(start, w, Environment(up.cluster));
  }

  /** The first version is deployed, brought up, and takes the traffic. */
  lemma FirstDeploy(start: World) returns (w: World)
    requires Fresh(start)
    ensures Reachable(start, w) && Steady(w) && Serves(w.row.targets, 1)
    ensures w.row.servingVersion == Some(1)
  {
    hide Live, DesiredFront, Reachable, Steady, ApplyDesiredState, DeployedRow, Pending, Serves, ValidId, Tidy, Synced, ValidSplit;
    DeployedServing(start.row, 1, 1);
    var step := Deploy(1, 1, true, true);
    ReachableStart(start);
    ReachableStep(start, start, step);
    DeployIsPending(start, 1, 1);
    var asked := start.(row := DeployedRow(start.row, 1, 1));
    ApplyMakesLive(asked, true);
    ApplyCreatesRouter(asked);
    SameTargetsFacts(Next(start, step).row, asked.row);
    var up := BringUp(start, Next(start, step));
    FreshDeployTargets(start.row);
    PendingSplit(asked);
    OnlyTargetIsDesired(asked.row, 1);
    OnePassConverges(up);
    ReachableStep(start, up, Sync);
    w := Synced(up);
    FrontIsDesired(w, 1);
  }

  lemma OnlyTargetIsDesired(row: Row, v: nat)
    requires |row.targets| == 1 && ValidSplit(Split(row.targets)) && Serves(row.targets, v)
    ensures DesiredFront(row) == OnVersion(v)
  {
    hide DesiredFront, ValidSplit;
    SingleTargetFront(row);
    SoleServing(row);
  }

  lemma FreshDeployTargets(row: Row)
    requires row.targets == []
    ensures |DeployedRow(row, 1, 1).targets| == 1
  {
    FreshUpsert(1, TOTAL_WEIGHT, 1);
  }

  lemma PendingSplit(w: World)
    requires Pending(w)
    ensures ValidSplit(Split(w.row.targets)) && Sorted(w.row.targets)
  {
    hide ValidSplit, Tidy;
  }

  lemma FrontIsDesired(w: World, v: nat)
    requires Steady(w) && CurrentFront(w.row) == DesiredFront(w.row) == OnVersion(v)
    ensures w.row.servingVersion == Some(v) && Serves(w.row.targets, v)
  {
    hide Tidy, AllPodsWanted, TargetName, RouterName, DesiredFront;
  }

  /** From any steady deployment: half the traffic to one of its versions, brought up and synced. */
  lemma SplitInHalf(start: World, w: World, version: nat) returns (split: World)
    requires Reachable(start, w) && Steady(w)
    requires exists v :: v != version && Serves(w.row.targets, v)
    ensures Reachable(start, split) && Steady(split)
    ensures CurrentFront(split.row) == OnRouter
  {
    hide Live, DesiredFront, Reachable, Steady, ApplyDesiredState, RolledOutRow, Pending, CurrentFront, Synced, Serves,
         SameTargets, Sorted;
    SteadyIsLive(w);
    LiveSorted(w);
    LiveExists(w);
    var step := Rollout(version, 50, true, true);
    ReachableStep(start, w, step);
    RolloutIsPending(w, version, 50);
    var asked := w.(row := RolledOutRow(w.row, version, 50));
    ApplyMakesLive(asked, true);
    ApplyCreatesRouter(asked);
    HalfNeedsRouter(w, version);
    SameTargetsFacts(Next(w, step).row, asked.row);
    var up := BringUp(start, Next(w, step));
    OnePassConverges(up);
    ReachableStep(start, up, Sync);
    split := Synced(up);
  }

  lemma HalfNeedsRouter(w: World, version: nat)
    requires Live(w) && InRange(Split(w.row.targets))
    requires exists v :: v != version && Serves(w.row.targets, v)
    ensures DesiredFront(RolledOutRow(w.row, version, 50)).OnRouter?
  {
    hide Live, DesiredFront, RolledOutRow, ApplyRollout, RolloutBase;
    var row := RolledOutRow(w.row, version, 50);
    LiveSorted(w);
    RolloutIsPending(w, version, 50);
    var base := RolloutBase(w.row.targets, version);
    BaseShape(w.row.targets, version);
    var v :| v != version && Serves(w.row.targets, v);
    assert HasVersion(base, v);
    RolloutNamesItsShare(base, version, 50);
    RolloutHasVersion(w.row.targets, version, 50, version);
    var s :| s in ApplyRollout(base, version, 50) && s.version == version;
    RolloutIsValid(base, version, 50);
    WeightInFound(ApplyRollout(base, version, 50), s);
    var i :| 0 <= i < |row.targets| && Split(row.targets)[i] == s;
    PartialShareNeedsRouter(row, row.targets[i]);
  }

  /**
   The address can be left answering nothing: from any fresh deployment there is a run, of
   ordinary operations and of pods becoming ready, on which requests reach a model until a
   further deploy is asked for, and then reach none.
   */
  lemma DeployOverSplitLosesTheModel(start: World)
    requires Fresh(start)
    ensures exists w, version ::
      Reachable(start, w) && Live(w) && Reaches(w) && !Reaches(Next(w, Deploy(version, 1, true, true)))
  {
    hide Live, Reachable, Steady, Reaches, Deployed, TargetName, Serves, Fresh;
    var one := FirstDeploy(start);
    var split := SplitInHalf(start, one, 2);
    SteadyIsLive(split);
    SteadySplitReaches(split);
    var version := UnusedVersion(split.row, split.cluster);
    DeployReaches(split, version, 1, true);
    assert Next(split, Deploy(version, 1, true, true)) == Deployed(split, version, 1, true, true);
  }

  lemma SteadySplitReaches(w: World)
    requires Steady(w) && CurrentFront(w.row) == OnRouter
    ensures Reaches(w)
  {
    hide TargetName, RouterName, FrontName, Tidy, ValidId, DesiredFront, Sorted;
    PositiveServing(w.row.targets);
    var t := Serving(w.row.targets)[0];
    assert t in Serving(w.row.targets);
    assert PodsWanted(w.row, w.cluster, t) && AllReady(w.cluster, TName(w.row, t.version));
    assert ReadyAt(w.cluster, TName(w.row, t.version)) > 0;
  }

  /** With a full rollout to a version that has no pods, nothing in rotation is ready. */
  lemma FullRolloutServesOnly(w: World, version: nat)
    requires Live(w) && TName(w.row, version) !in w.cluster.deployments
    ensures InRange(Split(w.row.targets))
    ensures !SomeServedReady(RolledOutRow(w.row, version, TOTAL_WEIGHT), w.cluster)
  {
    hide Live, TargetName, RolledOutRow, ApplyRollout, RolloutBase, InRange, Distinct, Sorted;
    LiveSorted(w);
    RolloutIsPending(w, version, TOTAL_WEIGHT);
    RolledOutRowShape(w.row, version, TOTAL_WEIGHT);
    BaseShape(w.row.targets, version);
    var row := RolledOutRow(w.row, version, TOTAL_WEIGHT);
    forall t | t in row.targets && t.weight > 0 ensures t.version == version {
      var i :| 0 <= i < |row.targets| && row.targets[i] == t;
      assert Split(row.targets)[i] == Share(t.version, t.weight);
      RolloutTo100Members(RolloutBase(w.row.targets, version), version, Share(t.version, t.weight));
    }
  }

  /** A rollout can do what a deploy can, being the same change of the split. */
  lemma RolloutOverSplitLosesTheModel(start: World)
    requires Fresh(start)
    ensures exists w, version ::
      Reachable(start, w) && Live(w) && Reaches(w) && !Reaches(Next(w, Rollout(version, TOTAL_WEIGHT, true, true)))
  {
    hide Live, Reachable, Steady, Reaches, RolledOut, TargetName, Serves, Fresh, SomeServedReady;
    var one := FirstDeploy(start);
    var split := SplitInHalf(start, one, 2);
    SteadyIsLive(split);
    SteadySplitReaches(split);
    var version := UnusedVersion(split.row, split.cluster);
    RolloutReaches(split, version, TOTAL_WEIGHT, true);
    FullRolloutServesOnly(split, version);
    assert Next(split, Rollout(version, TOTAL_WEIGHT, true, true)) == RolledOut(split, version, TOTAL_WEIGHT, true, true);
  }

  // ------------------------------------------------------- a pass onto the router

  /** A rollout leaves at nothing a version that had nothing, while another had something. */
  lemma RolloutLeavesOut(w: World, version: nat, traffic: int, out: nat, t: Target)
    requires Live(w) && 0 <= traffic <= TOTAL_WEIGHT && out != version
    requires Serves(w.row.targets, out) && forall u :: u in w.row.targets && u.version == out ==> u.weight == 0
    requires exists u :: u in w.row.targets && u.version != version && u.weight > 0
    ensures InRange(Split(w.row.targets))
    ensures t in RolledOutRow(w.row, version, traffic).targets && t.version == out ==> t.weight == 0
  {
    hide Live, RolledOutRow, ApplyRollout, InRange, Distinct, Sorted, WeightIn, Sum;
    LiveSorted(w);
    RolloutIsPending(w, version, traffic);
    BaseShape(w.row.targets, version);
    var base, row := RolloutBase(w.row.targets, version), RolledOutRow(w.row, version, traffic);
    if t in row.targets && t.version == out {
      var i :| 0 <= i < |row.targets| && row.targets[i] == t;
      var s := BaseShare(w.row.targets, version, out);
      var u :| u in w.row.targets && u.version != version && u.weight > 0;
      OthersTakeTraffic(w.row.targets, version, u);
      RolloutIsProportional(base, version, traffic, s);
      RolloutIsValid(base, version, traffic);
      assert Split(row.targets)[i] == Share(out, t.weight);
      WeightInFound(ApplyRollout(base, version, traffic), Share(out, t.weight));
    }
  }

  lemma BaseShare(ts: seq<Target>, version: nat, v: nat) returns (s: Share)
    requires Serves(ts, v) && v != version && forall u :: u in ts && u.version == v ==> u.weight == 0
    ensures s == Share(v, 0) && s in RolloutBase(ts, version)
  {
    var i :| 0 <= i < |ts| && ts[i].version == v;
    assert ts[i] in ts;
    s := RolloutBase(ts, version)[i];
  }

  lemma OthersTakeTraffic(ts: seq<Target>, version: nat, u: Target)
    requires InRange(Split(ts)) && u in ts && u.version != version && u.weight > 0
    ensures Sum(Weights(Others(RolloutBase(ts, version), version))) > 0
  {
    hide Sum;
    var base := RolloutBase(ts, version);
    var others := Others(base, version);
    var i :| 0 <= i < |ts| && ts[i] == u;
    assert base[i] in others;
    OthersInRange(base, version);
    SumNonNegative(Weights(others));
    var k :| 0 <= k < |others| && others[k] == base[i];
    assert Weights(others)[k] > 0;
  }

  /** From version 1 alone: deploy 2, then give 3 half of it, the address still on 1. */
  lemma LeftOnTheFirst(start: World, one: World) returns (w: World)
    requires Reachable(start, one) && Steady(one) && one.row.servingVersion == Some(1) && Serves(one.row.targets, 1)
    ensures Reachable(start, w) && Live(w) && w.row.servingVersion == Some(1)
    ensures DesiredFront(w.row).OnRouter? && w.row.routerName.Some?
    ensures forall t :: t in w.row.targets && t.weight > 0 ==> t.version != 1
  {
    hide Live, DesiredFront, Reachable, Steady, ApplyDesiredState, DeployedRow, RolledOutRow, Pending, Serves, SameTargets,
         Sorted, InRange;
    SteadyIsLive(one);
    var two := DeployedAfter(start, one);
    LiveSorted(two);
    LiveExists(two);
    LiveAnswers(two);
    var step := Rollout(3, 50, true, true);
    ReachableStep(start, two, step);
    RolloutIsPending(two, 3, 50);
    var asked := two.(row := RolledOutRow(two.row, 3, 50));
    RolledOutRowShape(two.row, 3, 50);
    ApplyMakesLive(asked, true);
    ApplyCreatesRouter(asked);
    HalfNeedsRouter(two, 3);
    SameTargetsFacts(Next(two, step).row, asked.row);
    forall t | t in asked.row.targets && t.weight > 0 ensures t.version != 1 {
      RolloutLeavesOut(two, 3, 50, 1, t);
    }
    SameWeights(Next(two, step).row, asked.row, 1);
    w := Next(two, step);
  }

  lemma SameWeights(row: Row, other: Row, v: nat)
    requires SameTargets(row.targets, other.targets)
    requires forall t :: t in other.targets && t.weight > 0 ==> t.version != v
    ensures forall t :: t in row.targets && t.weight > 0 ==> t.version != v
  {
    forall t | t in row.targets && t.weight > 0 ensures t.version != v {
      var i :| 0 <= i < |row.targets| && row.targets[i] == t;
      assert other.targets[i] in other.targets;
    }
  }

  lemma DeployedAfter(start: World, one: World) returns (two: World)
    requires Reachable(start, one) && Live(one) && one.row.servingVersion == Some(1) && Serves(one.row.targets, 1)
    ensures Reachable(start, two) && Live(two) && two.row.servingVersion == Some(1)
    ensures Serves(two.row.targets, 1) && Serves(two.row.targets, 2)
    ensures forall t :: t in two.row.targets && t.version == 1 ==> t.weight == 0
    ensures exists t :: t in two.row.targets && t.version != 3 && t.weight > 0
  {
    hide Live, DesiredFront, Reachable, ApplyDesiredState, DeployedRow, Pending, Sorted, InRange;
    LiveAnswers(one);
    LiveSorted(one);
    var step := Deploy(2, 1, true, true);
    ReachableStep(start, one, step);
    DeployIsPending(one, 2, 1);
    DeployedServing(one.row, 2, 1);
    DeployedKeeps(one.row, 1);
    var asked := one.(row := DeployedRow(one.row, 2, 1));
    ApplyMakesLive(asked, true);
    two := Next(one, step);
    SameTargetsFacts(two.row, asked.row);
    forall t | t in two.row.targets && t.version == 1 ensures t.weight == 0 {
      var i :| 0 <= i < |two.row.targets| && two.row.targets[i] == t;
      assert asked.row.targets[i] in asked.row.targets;
      LiveWeights(two, t);
    }
    var t :| t in two.row.targets && t.version == 2;
    var i :| 0 <= i < |two.row.targets| && two.row.targets[i] == t;
    assert asked.row.targets[i] in asked.row.targets;
  }

  lemma LiveWeights(w: World, t: Target)
    requires Live(w) && t in w.row.targets
    ensures t.weight >= 0 && t.replicas >= 1
  {
    var i :| 0 <= i < |w.row.targets| && w.row.targets[i] == t;
    assert Split(w.row.targets)[i].weight >= 0;
  }

  lemma DeployedKeeps(row: Row, v: nat)
    requires Sorted(row.targets) && Serves(row.targets, v)
    ensures Serves(DeployedRow(row, 2, 1).targets, v) && DeployedRow(row, 2, 1).servingVersion == row.servingVersion
    ensures DeployedRow(row, 2, 1).k8sName == row.k8sName
  {
    hide Upserted;
    ZeroedServes(row.targets, 2, v);
    UpsertedServes(ZeroedExcept(row.targets, 2), 2, TOTAL_WEIGHT, 1, v);
  }

  /** The environment brings up what the address is on and the router, and nothing else. */
  function OnlyAddressUp(w: World): World {
    w.(cluster := w.cluster.(deployments := map n | n in w.cluster.deployments ::
         w.cluster.deployments[n].(ready := if n == FrontPods(w.row) || n == RName(w.row)
                                            then w.cluster.deployments[n].desired else 0)))
  }

  lemma OnlyAddressUpAllowed(w: World)
    requires Live(w)
    ensures EnvironmentStep(w, OnlyAddressUp(w).cluster)
  {
    hide TargetName, RouterName, FrontName, Settings, RouterInStep, FrontInStep, TargetLabels, RouterLabels;
    var c := OnlyAddressUp(w).cluster;
    forall n | n in c.deployments && Owned(w.row.id, c.deployments[n].labels)
      ensures OwnEntry(w.row, n, c.deployments[n].labels)
    {
      assert OwnEntry(w.row, n, w.cluster.deployments[n].labels);
    }
  }

  lemma OnlyAddressReady(w: World)
    requires Live(w) && w.row.servingVersion.Some? && w.row.routerName.Some? && DesiredFront(w.row).OnRouter?
    requires forall t :: t in w.row.targets && t.weight > 0 ==> t.version != w.row.servingVersion.value
    ensures var u := OnlyAddressUp(w);
      Reaches(u) && MovesOntoRouter(u) && !SomeServedReady(u.row, u.cluster)
  {
    hide TargetName, RouterName, FrontName, Tidy, ValidId, DesiredFront, Sorted, ValidSplit;
    var t :| t in w.row.targets && t.version == w.row.servingVersion.value;
    assert PodsWanted(w.row, w.cluster, t);
    forall s | s in w.row.targets && s.weight > 0 ensures ReadyAt(OnlyAddressUp(w).cluster, TName(w.row, s.version)) == 0 {
      NamesApart(w.row, s.version, w.row.servingVersion.value);
    }
  }

  /** From any fresh deployment there is a run on which a pass alone takes a request's model away. */
  lemma PassOntoRouterLosesTheModel(start: World)
    requires Fresh(start)
    ensures exists w :: Reachable(start, w) && Live(w) && Reaches(w) && !Reaches(Next(w, Sync))
  {
    hide Live, Reachable, Steady, Reaches, Synced, Fresh, EnvironmentStep, OnlyAddressUp, MovesOntoRouter, SomeServedReady;
    var one := FirstDeploy(start);
    var w := LeftOnTheFirst(start, one);
    var u := OnlyAddressUp(w);
    OnlyAddressUpAllowed(w);
    OnlyAddressUpRow(w);
    EnvironmentKeepsInv(w, u.cluster);
    LiveNotFresh(w, u);
    ReachableStep(start, w, Environment(u.cluster));
    OnlyAddressReady(w);
    SyncReaches(u);
    assert Next(u, Sync) == Synced(u);
  }

  lemma OnlyAddressUpRow(w: World)
    ensures OnlyAddressUp(w) == w.(cluster := OnlyAddressUp(w).cluster)
  {
  }
}
