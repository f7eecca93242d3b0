/**
 The sync loop converges: once every pod that is wanted is ready, one pass puts the address
 where it should be and reports READY, and the pass after next finds nothing to write.
 */
module FrontDoorConvergence {
  import opened Prelude
  import opened Names
  import opened Cluster
  import opened Routing
  import opened DeploymentRows
  import opened FrontDoor
  import opened FrontDoorSafety
  import opened FrontDoorRuns

  ghost predicate AllReady(c: State, n: string) {
    n in c.deployments && c.deployments[n].ready == c.deployments[n].desired
  }

  /** Every pod that is wanted is ready, and a router that is wanted has been created. */
  ghost predicate Steady(w: World) {
    && Live(w)
    && (forall t :: t in w.row.targets ==> AllReady(w.cluster, TName(w.row, t.version)))
    && (w.row.routerName.Some? ==> AllReady(w.cluster, RName(w.row)))
    && (DesiredFront(w.row).OnRouter? ==> w.row.routerName.Some?)
  }

  // --------------------------------------------------------- what a status claims

  /**
   READY is a claim with one meaning: some version takes traffic, all that do are ready,
   the address is where it should be, and what it resolves to can answer.
   */
  lemma ReadyMeans(row: Row, previous: Status)
    ensures Judge(row, previous).status == READY
      <==> && Serving(row.targets) != []
           && (forall t :: t in Serving(row.targets) ==> t.status == READY)
           && FrontReady(row, CurrentFront(row))
           && CurrentFront(row) == DesiredFront(row)
    ensures Judge(row, previous).status == READY
        ==> Judge(row, previous) == Verdict(READY, ReadySum(Serving(row.targets)), NoError)
  {
    hide FrontReady, CurrentFront, DesiredFront, ReadySum;
    var serving := Serving(row.targets);
    assert serving != [] ==> serving[0] in serving;
  }

  // ------------------------------------------------------- one pass, when steady

  /** What a steady cluster shows of a version. */
  function SteadyTarget(row: Row, t: Target): Target {
    t.(status := if Replicas(row, t) > 0 then READY else STOPPED,
       readyReplicas := Replicas(row, t), lastError := None)
  }

  lemma SteadyObservation(w: World, i: nat)
    requires Steady(w) && i < |w.row.targets|
    ensures ObservedRow(w).targets[i] == SteadyTarget(w.row, w.row.targets[i])
  {
    hide TargetName, RouterName, FrontName, Tidy, Settings, FrontInStep, RouterInStep, DesiredFront;
    var t := w.row.targets[i];
    assert t in w.row.targets;
    assert PodsWanted(w.row, w.cluster, t) && AllReady(w.cluster, TName(w.row, t.version));
  }

  lemma SteadyRouter(w: World)
    requires Steady(w) && w.row.routerName.Some?
    ensures ObservedRow(w).routerStatus == Some(READY) && ObservedRow(w).routerReady == ROUTER_REPLICAS
  {
    hide TargetName, RouterName, FrontName, Tidy, Settings, FrontInStep, DesiredFront, ObservedTargets, Named,
         AllPodsWanted;
  }

  lemma ServingIsReady(w: World, t: Target)
    requires Steady(w) && t in ObservedRow(w).targets && t.weight > 0
    ensures t.status == READY
  {
    hide ObservedRow, Tidy, FrontInStep, RouterInStep, DesiredFront, ValidSplit, ValidId;
    ObservationKeepsLive(w);
    var i :| 0 <= i < |ObservedRow(w).targets| && ObservedRow(w).targets[i] == t;
    assert w.row.targets[i] in w.row.targets;
    SteadyObservation(w, i);
  }

  lemma {:induction false} FindServed(ts: seq<Target>, t: Target)
    requires Sorted(ts) && t in ts
    ensures Find(ts, t.version) == Some(t)
  {
    if ts[0] != t {
      assert t in ts[1..];
      var i :| 1 <= i < |ts| && ts[i] == t;
      FindServed(ts[1..], t);
    }
  }

  /** When steady, wherever the address should go is ready for it. */
  lemma WantedIsReady(w: World)
    requires Steady(w)
    ensures FrontReady(ObservedRow(w), DesiredFront(ObservedRow(w)))
    ensures DesiredFront(ObservedRow(w)) == DesiredFront(w.row)
  {
    hide ObservedRow, Tidy, RouterInStep, ValidId, Named, AllPodsWanted;
    ObservationKeepsLive(w);
    var row := ObservedRow(w);
    SameTargetsFacts(row, w.row);
    NeverJudgedStopped(row, READY);
    if DesiredFront(row).OnRouter? {
      SteadyRouter(w);
    } else {
      SoleServing(row);
      var t :| t in row.targets && t.version == DesiredFront(row).version;
      hide DesiredFront;
      ServingIsReady(w, t);
      FindServed(row.targets, t);
    }
  }

  /** A row whose address is in place, with every version taking traffic ready. */
  ghost predicate InOrder(row: Row) {
    && Serving(row.targets) != []
    && (forall t :: t in Serving(row.targets) ==> t.status == READY)
    && FrontReady(row, CurrentFront(row))
    && CurrentFront(row) == DesiredFront(row)
  }

  lemma ServingAllReady(w: World, row: Row)
    requires Steady(w) && row.targets == ObservedRow(w).targets
    ensures Serving(row.targets) != [] && forall t :: t in Serving(row.targets) ==> t.status == READY
  {
    hide ObservedRow, Tidy, RouterInStep, FrontInStep, ValidId, Named, AllPodsWanted, Serving;
    ObservationKeepsLive(w);
    PositiveServing(row.targets);
    forall t | t in Serving(row.targets) ensures t.status == READY {
      ServingIsReady(w, t);
    }
  }

  lemma BeforeJudgingIsInOrder(w: World)
    requires Steady(w)
    ensures InOrder(BeforeJudging(w).row)
    ensures BeforeJudging(w).row.targets == ObservedRow(w).targets
  {
    hide ObservedRow, AfterMove, Moved, Serving, DesiredFront, FrontReady, Shifted, Placed, RouterJustified, ReadyAt,
         FrontPods;
    ObservationKeepsLive(w);
    WantedIsReady(w);
    var seen := w.(row := ObservedRow(w));
    SameTargetsFacts(seen.row, w.row);
    LiveIsActive(w);
    NeverNoFront(seen.row);
    if WillMove(seen.row) {
      MoveIsReady(w);
      MoveStage(seen);
      var moved := Moved(seen);
      AfterMoveStage(moved);
      var after := AfterMove(moved);
      SameDesiredFront(after.row, moved.row);
      PlacedHasFront(after);
      SameCurrentFront(after.row, moved.row);
      AfterMoveKeepsEvidence(seen);
      SameTargetsReady(w, after.row);
    } else {
      SameTargetsReady(w, seen.row);
    }
  }

  lemma PlacedHasFront(w: World)
    requires Placed(w)
    ensures w.row.k8sName.Some?
  {
  }

  lemma NeverNoFront(row: Row)
    requires Settings(row)
    ensures DesiredFront(row) != NoFront
  {
    NeverJudgedStopped(row, READY);
  }

  lemma SameTargetsReady(w: World, row: Row)
    requires Steady(w) && row.targets == ObservedRow(w).targets
    requires FrontReady(row, DesiredFront(row)) && CurrentFront(row) == DesiredFront(row)
    ensures InOrder(row)
  {
    hide ObservedRow, Serving, DesiredFront, FrontReady, CurrentFront, Steady;
    ServingAllReady(w, row);
  }

  /** Tidying up after a move does not lose sight of what the address now stands on. */
  lemma AfterMoveKeepsEvidence(seen: World)
    requires FrontReady(seen.row, DesiredFront(seen.row)) && seen.row.k8sName.Some?
    requires DesiredFront(seen.row) != NoFront
    ensures FrontReady(AfterMove(Moved(seen)).row, DesiredFront(seen.row))
  {
    hide ScaledDown, Doomed, Find, Serving;
  }

  // ------------------------------------------------- steadiness survives a pass

  lemma ScaledStaysReady(w: World, t: Target)
    requires Sorted(w.row.targets) && t in w.row.targets && AllReady(w.cluster, TName(w.row, t.version))
    requires OutOfRotation(w.row, t) ==> Replicas(w.row, t) == 0
    ensures AllReady(ScaledDown(w, w.row.targets), TName(w.row, t.version))
  {
    hide TargetName, ScaledDown, OutOfRotation, Replicas;
    if OutOfRotation(w.row, t) {
      ScaledDownAt(w, w.row.targets, t);
    } else {
      forall u | u in w.row.targets && OutOfRotation(w.row, u) ensures TName(w.row, t.version) != TName(w.row, u.version) {
        NamesApart(w.row, t.version, u.version);
        if t.version == u.version { SortedUnique(w.row.targets, t, u); }
      }
      ScaledDownElsewhere(w, w.row.targets, TName(w.row, t.version));
    }
  }

  lemma TidyingSpares(w: World, n: string)
    requires Placed(w) && AllReady(w.cluster, n) && n != RName(w.row)
    requires exists v: nat :: n == TName(w.row, v) && Serves(w.row.targets, v)
    ensures AllReady(Reaped(RouterRemoved(w)).cluster, n)
  {
    hide TargetName, RouterName, FrontName, Doomed, Serves, Serving;
    RemovalStage(w);
    var v: nat :| n == TName(w.row, v) && Serves(w.row.targets, v);
    var removed := RouterRemoved(w);
    assert n == TName(removed.row, v);
    ReapingSpares(removed, n);
  }

  lemma AfterMoveStaysReady(w: World, t: Target)
    requires Shifted(w) && t in w.row.targets && AllReady(w.cluster, TName(w.row, t.version))
    ensures AllReady(AfterMove(w).cluster, TName(w.row, t.version))
  {
    hide TargetName, RouterName, FrontName, ScaledDown, RouterRemoved, Reaped, Tidy, FrontInStep, RouterInStep, ValidId,
         ValidSplit, PodsWanted;
    ScaleDownStage(w);
    ScaledStaysReady(w, t);
    NamesApart(w.row, t.version, t.version);
    var scaled := w.(cluster := ScaledDown(w, w.row.targets));
    assert Serves(scaled.row.targets, t.version);
    assert TName(scaled.row, t.version) == TName(w.row, t.version);
    TidyingSpares(scaled, TName(w.row, t.version));
  }

  lemma AfterMoveKeepsRouter(w: World)
    requires Shifted(w) && AfterMove(w).row.routerName.Some? && AllReady(w.cluster, RName(w.row))
    ensures AllReady(AfterMove(w).cluster, RName(w.row))
    ensures w.row.routerName.Some?
  {
    hide TargetName, RouterName, FrontName, ScaledDown, Tidy, FrontInStep, RouterInStep, ValidId, ValidSplit, PodsWanted,
         DesiredFront, CurrentFront, Doomed;
    ScaleDownStage(w);
    forall t | t in w.row.targets ensures RName(w.row) != TName(w.row, t.version) {
      NamesApart(w.row, t.version, t.version);
    }
    ScaledDownElsewhere(w, w.row.targets, RName(w.row));
    var scaled := w.(cluster := ScaledDown(w, w.row.targets));
    PlacedFacts(scaled);
    ReapingSpares(scaled, RName(scaled.row));
  }

  lemma PlacedFacts(w: World)
    requires Placed(w)
    ensures Tidy(w.row, w.cluster) && ValidId(w.row.id)
  {
  }

  lemma {:induction false} AfterMoveKeepsWantedRouter(w: World)
    requires w.row.routerName.Some? && DesiredFront(w.row).OnRouter?
    ensures AfterMove(w).row == w.row
  {
    hide ScaledDown, Doomed;
  }

  /** After a pass everything that is wanted is still, or again, ready. */
  lemma SyncStaysSteady(w: World)
    requires Steady(w)
    ensures Steady(Synced(w))
  {
    hide ObservedRow, AfterMove, Moved, DesiredFront, Live, Judge, RName, TargetName, Shifted, WillMove;
    SyncKeepsLive(w);
    LiveIsActive(w);
    SyncKeepsNames(w);
    ObservationKeepsLive(w);
    SameTargetsFacts(ObservedRow(w), w.row);
    BeforeJudgingIsInOrder(w);
    var s := Synced(w);
    forall t | t in s.row.targets ensures AllReady(s.cluster, TName(s.row, t.version)) {
      SyncedTargetReady(w, t);
    }
    if s.row.routerName.Some? { SyncedRouterReady(w); }
    if DesiredFront(s.row).OnRouter? { SyncedRouterKept(w); }
  }

  lemma AllReadySame(c: State, d: State, n: string)
    requires c.deployments == d.deployments
    ensures AllReady(c, n) <==> AllReady(d, n)
  {
  }

  lemma SameTargetIsReady(w: World, t: Target)
    requires Steady(w) && t in ObservedRow(w).targets
    ensures AllReady(w.cluster, TName(w.row, t.version))
  {
    hide ObservedRow, DesiredFront, Live, TargetName, AllReady;
    ObservationKeepsLive(w);
    var i :| 0 <= i < |ObservedRow(w).targets| && ObservedRow(w).targets[i] == t;
    assert w.row.targets[i] in w.row.targets;
  }

  lemma SyncedTargetReady(w: World, t: Target)
    requires Steady(w) && t in Synced(w).row.targets
    ensures AllReady(Synced(w).cluster, TName(w.row, t.version))
    ensures TName(Synced(w).row, t.version) == TName(w.row, t.version)
  {
    hide ObservedRow, AfterMove, Moved, DesiredFront, Live, Judge, TargetName, Shifted, WillMove, AllReady, Steady;
    SteadyIsLive(w);
    LiveIsActive(w);
    SyncKeepsNames(w);
    BeforeJudgingIsInOrder(w);
    SameTargetIsReady(w, t);
    var seen := w.(row := ObservedRow(w));
    if WillMove(seen.row) {
      MoveIsReady(w);
      MoveStage(seen);
      MovedDeployments(seen);
      AllReadySame(w.cluster, Moved(seen).cluster, TName(w.row, t.version));
      AfterMoveStaysReady(Moved(seen), t);
    }
  }

  lemma SteadyIsLive(w: World)
    requires Steady(w)
    ensures Live(w)
  {
  }

  lemma MovedDeployments(w: World)
    ensures Moved(w).cluster.deployments == w.cluster.deployments
    ensures Moved(w).row.id == w.row.id && Moved(w).row.name == w.row.name
    ensures Moved(w).row.routerName == w.row.routerName
    ensures Moved(w).row.targets == w.row.targets
  {
  }

  lemma ObservedRouterName(w: World)
    ensures ObservedRow(w).routerName == w.row.routerName
  {
  }

  lemma SyncedRouterReady(w: World)
    requires Steady(w) && Synced(w).row.routerName.Some?
    ensures AllReady(Synced(w).cluster, RName(Synced(w).row))
  {
    hide ObservedRow, AfterMove, Moved, DesiredFront, Live, Judge, RouterName, Shifted, WillMove, AllReady;
    LiveIsActive(w);
    SyncKeepsNames(w);
    ObservationKeepsLive(w);
    ObservedRouterName(w);
    var seen := w.(row := ObservedRow(w));
    if WillMove(seen.row) {
      MoveIsReady(w);
      MoveStage(seen);
      MovedDeployments(seen);
      AllReadySame(w.cluster, Moved(seen).cluster, RName(w.row));
      if AllReady(w.cluster, RName(w.row)) {
        AfterMoveKeepsRouter(Moved(seen));
      } else {
        AfterMoveAddsNoRouter(Moved(seen));
      }
    }
  }

  lemma AfterMoveAddsNoRouter(w: World)
    ensures AfterMove(w).row.routerName.Some? ==> w.row.routerName.Some?
  {
    hide ScaledDown, Doomed, DesiredFront, CurrentFront;
  }

  lemma SyncedRouterKept(w: World)
    requires Steady(w) && DesiredFront(Synced(w).row).OnRouter?
    ensures Synced(w).row.routerName.Some?
  {
    hide ObservedRow, AfterMove, Moved, Live, Judge, RouterName, Shifted, WillMove, AllReady, DesiredFront;
    SyncKeepsLive(w);
    LiveIsActive(w);
    ObservationKeepsLive(w);
    ObservedRouterName(w);
    SameTargetsFacts(ObservedRow(w), w.row);
    var seen := w.(row := ObservedRow(w));
    if WillMove(seen.row) {
      MovedDeployments(seen);
      SameDesiredFront(Moved(seen).row, seen.row);
      AfterMoveKeepsWantedRouter(Moved(seen));
    }
  }

  // ----------------------------------------------------------------- theorems

  /** How many versions take traffic. */
  function VersionsTakingTraffic(row: Row): nat {
    |Serving(row.targets)|
  }

  /**
   With every wanted pod ready and no new request, one pass puts the address where it
   should be, keeps a router exactly when two or more versions take traffic, leaves every
   version out of rotation with no pods wanted, and reports READY.
   */
  lemma OnePassConverges(w: World)
    requires Steady(w)
    ensures CurrentFront(Synced(w).row) == DesiredFront(Synced(w).row) == DesiredFront(w.row)
    ensures RName(w.row) in Synced(w).cluster.deployments <==> VersionsTakingTraffic(Synced(w).row) >= 2
    ensures forall t :: t in Synced(w).row.targets && t.weight == 0 ==>
      TName(w.row, t.version) in Synced(w).cluster.deployments
      && Synced(w).cluster.deployments[TName(w.row, t.version)].desired == 0
    ensures Synced(w).row.status == READY && Synced(w).row.lastError == NoError
    ensures Steady(Synced(w))
  {
    hide Live, Judge, TargetName, RouterName, ObservedRow, WillMove, AfterMove, Moved;
    SyncStaysSteady(w);
    SyncKeepsLive(w);
    SyncKeepsNames(w);
    LiveIsActive(w);
    ObservationKeepsLive(w);
    SameTargetsFacts(ObservedRow(w), w.row);
    BeforeJudgingIsInOrder(w);
    ReadyMeans(BeforeJudging(w).row, w.row.status);
    var s := Synced(w);
    assert s == Judged(BeforeJudging(w), w.row.status);
    LiveRouter(s);
    forall t | t in s.row.targets && t.weight == 0
      ensures TName(w.row, t.version) in s.cluster.deployments
           && s.cluster.deployments[TName(w.row, t.version)].desired == 0
    {
      ConvergedOutOfRotation(s, t);
    }
  }

  lemma LiveRouter(w: World)
    requires Steady(w) && CurrentFront(w.row) == DesiredFront(w.row)
    ensures RName(w.row) in w.cluster.deployments <==> VersionsTakingTraffic(w.row) >= 2
  {
    hide RouterName, FrontName, Tidy, Settings, Named, AllPodsWanted, Serving;
  }

  lemma ConvergedOutOfRotation(w: World, t: Target)
    requires Live(w) && CurrentFront(w.row) == DesiredFront(w.row) && t in w.row.targets && t.weight == 0
    ensures TName(w.row, t.version) in w.cluster.deployments
    ensures w.cluster.deployments[TName(w.row, t.version)].desired == 0
  {
    hide TargetName, RouterName, FrontName, Tidy, RouterInStep, ValidSplit, ValidId, Named;
    assert PodsWanted(w.row, w.cluster, t);
    if DesiredFront(w.row).OnVersion? { SoleServing(w.row); }
  }

  /** A converged, steady deployment that a pass has already looked at is left exactly as it is. */
  lemma SecondLookChangesNothing(w: World)
    requires Steady(w) && CurrentFront(w.row) == DesiredFront(w.row)
    ensures Synced(Synced(w)) == Synced(w) && Changes(Synced(w)) == 0
  {
    hide Live, Judge, TargetName, RouterName, ObservedRow, AfterMove, Moved, Steady, InOrder;
    var s := Synced(w);
    SteadyIsLive(w);
    LiveIsActive(w);
    ObservationKeepsLive(w);
    SameTargetsFacts(ObservedRow(w), w.row);
    SameObservedFront(w);
    BeforeJudgingIsInOrder(w);
    var seen := w.(row := ObservedRow(w));
    assert !WillMove(seen.row) && s == Judged(seen, w.row.status);
    OrderIsReady(seen.row, w.row.status);
    SyncStaysSteady(w);
    SteadyIsLive(s);
    LiveIsActive(s);
    ObservedTwice(w, s);
    OrderIsReady(s.row, s.row.status);
    SameReadySum(s.row, seen.row);
    NoTargetChanges(s, |s.row.targets|);
  }

  lemma {:induction false} NoTargetChanges(w: World, n: nat)
    requires ObservedRow(w) == w.row && n <= |w.row.targets|
    ensures TargetChanges(w.cluster, w.row.targets[..n]) == 0
    ensures n == |w.row.targets| ==> TargetChanges(w.cluster, w.row.targets) == 0
  {
    hide ObservedTarget;
    if n > 0 {
      NoTargetChanges(w, n - 1);
      assert w.row.targets[..n][..n - 1] == w.row.targets[..n - 1];
      assert ObservedRow(w).targets[n - 1] == ObservedTarget(w.cluster, w.row.targets[n - 1]);
    }
    assert n == |w.row.targets| ==> w.row.targets[..n] == w.row.targets;
  }

  lemma OrderIsReady(row: Row, previous: Status)
    ensures InOrder(row) ==> Judge(row, previous) == Verdict(READY, ReadySum(Serving(row.targets)), NoError)
  {
    ReadyMeans(row, previous);
  }

  lemma SameReadySum(row: Row, other: Row)
    requires row == WithVerdict(other, Verdict(READY, ReadySum(Serving(other.targets)), NoError))
    ensures InOrder(row) <==> InOrder(other)
    ensures WithVerdict(row, Verdict(READY, ReadySum(Serving(row.targets)), NoError)) == row
  {
  }

  lemma SameObservedFront(w: World)
    ensures CurrentFront(ObservedRow(w)) == CurrentFront(w.row)
  {
  }

  /** Looking again at what was just recorded finds the same. */
  lemma ObservedTwice(w: World, s: World)
    requires Steady(w) && Steady(s) && s.cluster == w.cluster
    requires exists v :: s.row == WithVerdict(ObservedRow(w), v)
    ensures ObservedRow(s) == s.row
  {
    hide Live, TargetName, RouterName, Steady;
    var v :| s.row == WithVerdict(ObservedRow(w), v);
    forall i | 0 <= i < |s.row.targets| ensures ObservedRow(s).targets[i] == s.row.targets[i] {
      SteadyObservation(w, i);
      SteadyObservation(s, i);
    }
    assert ObservedRow(s).targets == s.row.targets;
    if s.row.routerName.Some? {
      SteadyRouter(w);
      SteadyRouter(s);
    }
  }

  /**
   Convergence: the first pass puts everything in place, at most one more records what it
   scaled down, and every later pass leaves row and cluster exactly as they are.
   */
  lemma SyncConverges(w: World)
    requires Steady(w)
    ensures var settled := Synced(Synced(w));
      Synced(settled) == settled && Changes(settled) == 0 && settled.cluster == Synced(w).cluster
  {
    hide Steady, DesiredFront, CurrentFront, Synced, WillMove, ObservedRow;
    OnePassConverges(w);
    SecondLookChangesNothing(Synced(w));
    SteadyIsLive(Synced(w));
    SyncKeepsLive(Synced(w));
    StaysWhenInPlace(Synced(w));
  }

  lemma StaysWhenInPlace(w: World)
    requires Live(w) && CurrentFront(w.row) == DesiredFront(w.row)
    ensures !WillMove(ObservedRow(w))
  {
    hide Live, ObservedRow, DesiredFront, FrontReady;
    ObservationKeepsLive(w);
    SameTargetsFacts(ObservedRow(w), w.row);
    SameObservedFront(w);
  }
}
