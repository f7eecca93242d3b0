/**
 Safety of the address over whole runs: every operation keeps a deployment's row and its
 cluster objects in step, and none of them takes the address's last ready endpoint away.
 */
module FrontDoorRuns {
  import opened Prelude
  import opened Names
  import opened Cluster
  import opened Apportionment
  import opened Routing
  import opened DeploymentRows
  import opened FrontDoor
  import opened FrontDoorSafety

  // --------------------------------------------------- what a request writes

  lemma {:induction false} ApportionNothing(ws: seq<int>, i: nat)
    requires Weighable(ws) && i < |ws|
    ensures Sum(Basis(ws)) > 0 && Apportion(ws, 0)[i] == 0
  {
    hide Apportion, Basis;
    ApportionTotal(ws, 0);
    forall k | 0 <= k < |ws| ensures Apportion(ws, 0)[k] >= 0 {
      ApportionNonNegative(ws, 0, k);
    }
    SumNonNegative(Apportion(ws, 0));
  }

  /** Sharing nothing out leaves every other version at 0. */
  lemma RolloutTo100Members(current: seq<Share>, version: nat, s: Share)
    requires InRange(current) && Distinct(current) && s in ApplyRollout(current, version, TOTAL_WEIGHT)
    ensures s.weight == if s.version == version then TOTAL_WEIGHT else 0
  {
    var others := Others(current, version);
    if others != [] {
      RolloutMembers(current, version, TOTAL_WEIGHT);
      hide ApplyRollout, Apportion;
      var unsorted := Unsorted(others, version, TOTAL_WEIGHT);
      var i :| 0 <= i < |unsorted| && unsorted[i] == s;
      if i < |others| {
        WeightsWeighable(others);
        ApportionNothing(Weights(others), i);
        assert others[i] in others;
      }
    }
  }

  ghost predicate HasVersion(shares: seq<Share>, v: nat) {
    exists s :: s in shares && s.version == v
  }

  lemma BaseServes(ts: seq<Target>, version: nat, v: nat)
    requires Sorted(ts) && InRange(Split(ts))
    requires v == version || Serves(ts, v)
    ensures HasVersion(RolloutBase(ts, version), v)
  {
    hide InRange;
    var base := RolloutBase(ts, version);
    if Serves(ts, v) {
      var t :| t in ts && t.version == v;
      var i :| 0 <= i < |ts| && ts[i] == t;
      assert base[i] in base;
    } else {
      assert base[|ts|] in base;
    }
  }

  lemma BaseServesOnly(ts: seq<Target>, version: nat, v: nat)
    requires Sorted(ts) && InRange(Split(ts)) && HasVersion(RolloutBase(ts, version), v)
    ensures v == version || Serves(ts, v)
  {
    hide InRange, Sorted;
    var base := RolloutBase(ts, version);
    var s :| s in base && s.version == v;
    var i :| 0 <= i < |base| && base[i] == s;
    assert i < |ts| ==> ts[i] in ts;
  }

  lemma BaseDistinct(ts: seq<Target>, version: nat)
    requires Sorted(ts) && InRange(Split(ts))
    ensures Distinct(RolloutBase(ts, version))
  {
    hide InRange;
    var base := RolloutBase(ts, version);
    forall i | 0 <= i < |ts| ensures Serves(ts, ts[i].version) && base[i] == Split(ts)[i] {
      assert ts[i] in ts;
    }
  }

  lemma BaseShape(ts: seq<Target>, version: nat)
    requires Sorted(ts) && InRange(Split(ts))
    ensures Distinct(RolloutBase(ts, version))
    ensures forall v :: HasVersion(RolloutBase(ts, version), v) <==> v == version || Serves(ts, v)
  {
    hide RolloutBase, Serves, HasVersion, Distinct, Sorted, InRange;
    BaseDistinct(ts, version);
    forall v ensures HasVersion(RolloutBase(ts, version), v) <==> v == version || Serves(ts, v) {
      if v == version || Serves(ts, v) { BaseServes(ts, version, v); }
      if HasVersion(RolloutBase(ts, version), v) { BaseServesOnly(ts, version, v); }
    }
  }

  lemma RolloutHasVersion(ts: seq<Target>, version: nat, weight: int, v: nat)
    requires Sorted(ts) && InRange(Split(ts))
    ensures HasVersion(ApplyRollout(RolloutBase(ts, version), version, weight), v) <==> v == version || Serves(ts, v)
  {
    hide RolloutBase, ApplyRollout, Serves;
    BaseShape(ts, version);
    RolloutVersions(RolloutBase(ts, version), version, weight, v);
    assert HasVersion(RolloutBase(ts, version), v) <==> v == version || Serves(ts, v);
  }

  lemma UpsertedServes(ts: seq<Target>, version: nat, weight: int, replicas: nat, v: nat)
    requires Sorted(ts)
    ensures Serves(Upserted(ts, version, weight, replicas), v) <==> v == version || Serves(ts, v)
  {
    hide Upserted;
    UpsertedMembers(ts, version, weight, replicas);
    var r := Upserted(ts, version, weight, replicas);
    if v != version {
      if t :| t in r && t.version == v { assert t in ts; }
      if t :| t in ts && t.version == v { assert t in r; }
    }
  }

  /**
   Deploying a version is rolling it out to 100%: the two operations write the same split,
   whatever the split was.
   */
  lemma DeployIsRolloutTo100(row: Row, version: nat, replicas: nat)
    requires Sorted(row.targets) && InRange(Split(row.targets))
    ensures Split(DeployedRow(row, version, replicas).targets)
         == ApplyRollout(RolloutBase(row.targets, version), version, TOTAL_WEIGHT)
    ensures Sorted(DeployedRow(row, version, replicas).targets)
  {
    var base := RolloutBase(row.targets, version);
    BaseShape(row.targets, version);
    var zeroed := ZeroedExcept(row.targets, version);
    var ts := Upserted(zeroed, version, TOTAL_WEIGHT, replicas);
    UpsertedSorted(zeroed, version, TOTAL_WEIGHT, replicas);
    UpsertedMembers(zeroed, version, TOTAL_WEIGHT, replicas);
    RolloutIsValid(base, version, TOTAL_WEIGHT);
    var next := ApplyRollout(base, version, TOTAL_WEIGHT);
    forall s ensures s in Split(ts) <==> s in next {
      DeployedShare(row.targets, version, replicas, ts, next, s);
    }
    SortedIsAscending(ts);
    AscendingUnique(Split(ts), next);
  }

  lemma ZeroedServes(ts: seq<Target>, version: nat, v: nat)
    ensures Serves(ZeroedExcept(ts, version), v) <==> Serves(ts, v)
  {
    var z := ZeroedExcept(ts, version);
    if t :| t in z && t.version == v {
      var i :| 0 <= i < |z| && z[i] == t;
      assert ts[i] in ts;
    }
    if t :| t in ts && t.version == v {
      var i :| 0 <= i < |ts| && ts[i] == t;
      assert z[i] in z;
    }
  }

  lemma DeployedIsNext(before: seq<Target>, version: nat, replicas: nat, ts: seq<Target>, next: seq<Share>, s: Share)
    requires Sorted(before) && InRange(Split(before))
    requires ts == Upserted(ZeroedExcept(before, version), version, TOTAL_WEIGHT, replicas)
    requires next == ApplyRollout(RolloutBase(before, version), version, TOTAL_WEIGHT)
    requires s in Split(ts)
    ensures s in next
  {
    hide Upserted, ApplyRollout, RolloutBase;
    var zeroed := ZeroedExcept(before, version);
    assert Sorted(zeroed);
    BaseShape(before, version);
    UpsertedMembers(zeroed, version, TOTAL_WEIGHT, replicas);
    var i :| 0 <= i < |ts| && Split(ts)[i] == s;
    assert ts[i] in ts && Serves(ts, s.version);
    if s.version != version {
      var k :| 0 <= k < |zeroed| && zeroed[k] == ts[i];
    }
    UpsertedServes(zeroed, version, TOTAL_WEIGHT, replicas, s.version);
    ZeroedServes(before, version, s.version);
    RolloutHasVersion(before, version, TOTAL_WEIGHT, s.version);
    var u :| u in next && u.version == s.version;
    RolloutTo100Members(RolloutBase(before, version), version, u);
  }

  lemma NextIsDeployed(before: seq<Target>, version: nat, replicas: nat, ts: seq<Target>, next: seq<Share>, s: Share)
    requires Sorted(before) && InRange(Split(before))
    requires ts == Upserted(ZeroedExcept(before, version), version, TOTAL_WEIGHT, replicas)
    requires next == ApplyRollout(RolloutBase(before, version), version, TOTAL_WEIGHT)
    requires s in next
    ensures s in Split(ts)
  {
    hide Upserted, ApplyRollout, RolloutBase;
    var zeroed := ZeroedExcept(before, version);
    assert Sorted(zeroed);
    BaseShape(before, version);
    UpsertedMembers(zeroed, version, TOTAL_WEIGHT, replicas);
    RolloutTo100Members(RolloutBase(before, version), version, s);
    assert HasVersion(next, s.version);
    RolloutHasVersion(before, version, TOTAL_WEIGHT, s.version);
    ZeroedServes(before, version, s.version);
    UpsertedServes(zeroed, version, TOTAL_WEIGHT, replicas, s.version);
    var t :| t in ts && t.version == s.version;
    var i :| 0 <= i < |ts| && ts[i] == t;
    if s.version != version {
      var k :| 0 <= k < |zeroed| && zeroed[k] == t;
    }
    assert Split(ts)[i] == s;
  }

  lemma DeployedShare(before: seq<Target>, version: nat, replicas: nat, ts: seq<Target>, next: seq<Share>, s: Share)
    requires Sorted(before) && InRange(Split(before))
    requires ts == Upserted(ZeroedExcept(before, version), version, TOTAL_WEIGHT, replicas)
    requires next == ApplyRollout(RolloutBase(before, version), version, TOTAL_WEIGHT)
    ensures s in Split(ts) <==> s in next
  {
    hide *;
    if s in Split(ts) { DeployedIsNext(before, version, replicas, ts, next, s); }
    if s in next { NextIsDeployed(before, version, replicas, ts, next, s); }
  }

  /** Writing a new split asks for something without disturbing what is running. */
  lemma PendingAfterWrite(w: World, row: Row)
    requires Inv(w) && w.row.status != STOPPED
    requires row == w.row.(replicas := row.replicas, targets := row.targets)
    requires Sorted(row.targets) && ValidSplit(Split(row.targets)) && row.replicas >= 1
    requires forall t :: t in row.targets ==> t.replicas >= 1
    requires forall v :: Serves(w.row.targets, v) ==> Serves(row.targets, v)
    requires Fresh(w) ==> |row.targets| == 1
    ensures Pending(World(row, w.cluster))
    ensures FrontPods(row) == FrontPods(w.row)
  {
    hide TargetName, RouterName, FrontName, TargetLabels, RouterLabels, FrontSelector, ValidId, Sorted, ValidSplit,
         Replicas, Serves, Named, AllPodsWanted;
    TidyFollowsNames(w.row, row, w.cluster);
    if Fresh(w) {
      SingleTargetFront(row);
    }
  }

  lemma SingleTargetFront(row: Row)
    requires |row.targets| == 1 && ValidSplit(Split(row.targets))
    ensures DesiredFront(row).OnVersion?
  {
    PositiveServing(row.targets);
    assert row.targets[1..] == [];
  }

  lemma DeployIsPending(w: World, version: nat, replicas: nat)
    requires Inv(w) && replicas >= 1
    ensures Pending(w.(row := DeployedRow(w.row, version, replicas)))
    ensures FrontPods(DeployedRow(w.row, version, replicas)) == FrontPods(w.row)
  {
    hide RouterInStep, FrontInStep, Tidy, ValidId, Named, AllPodsWanted, RouterJustified, Upserted, ApplyRollout,
         RolloutBase, Serves;
    var row := DeployedRow(w.row, version, replicas);
    var zeroed := ZeroedExcept(w.row.targets, version);
    BaseShape(w.row.targets, version);
    DeployIsRolloutTo100(w.row, version, replicas);
    RolloutIsValid(RolloutBase(w.row.targets, version), version, TOTAL_WEIGHT);
    UpsertedMembers(zeroed, version, TOTAL_WEIGHT, replicas);
    forall v | Serves(w.row.targets, v) ensures Serves(row.targets, v) {
      ZeroedServes(w.row.targets, version, v);
      UpsertedServes(zeroed, version, TOTAL_WEIGHT, replicas, v);
    }
    forall t | t in row.targets ensures t.replicas >= 1 {
      if t.version != version {
        var i :| 0 <= i < |zeroed| && zeroed[i] == t;
        assert w.row.targets[i] in w.row.targets;
      }
    }
    if Fresh(w) {
      FreshUpsert(version, TOTAL_WEIGHT, replicas);
      assert zeroed == [];
    }
    PendingAfterWrite(w, row);
  }

  lemma FreshUpsert(version: nat, weight: int, replicas: nat)
    ensures |Upserted([], version, weight, replicas)| == 1
  {
  }

  lemma RolloutIsPending(w: World, version: nat, traffic: int)
    requires Live(w) && 0 <= traffic <= TOTAL_WEIGHT
    ensures Pending(w.(row := RolledOutRow(w.row, version, traffic)))
    ensures FrontPods(RolledOutRow(w.row, version, traffic)) == FrontPods(w.row)
    ensures Split(RolledOutRow(w.row, version, traffic).targets)
         == ApplyRollout(RolloutBase(w.row.targets, version), version, traffic)
  {
    hide RouterInStep, FrontInStep, Tidy, ValidId, Named, AllPodsWanted, RouterJustified, Upserted, ApplyRollout,
         RolloutBase, Serves, WithWeights;
    var base := RolloutBase(w.row.targets, version);
    BaseShape(w.row.targets, version);
    var next := ApplyRollout(base, version, traffic);
    var row := RolledOutRow(w.row, version, traffic);
    var ts := RolloutTargets(w, version, traffic);
    RolloutIsValid(base, version, traffic);
    forall v ensures Serves(ts, v) <==> HasVersion(next, v) {
      RolloutHasVersion(w.row.targets, version, traffic, v);
    }
    assert forall v :: Serves(ts, v) <==> exists s :: s in next && s.version == v;
    WritingASplit(ts, next);
    assert SameVersions(ts, row.targets);
    forall v | Serves(w.row.targets, v) ensures Serves(row.targets, v) {
      SameVersionsServe(ts, row.targets, v);
    }
    forall t | t in row.targets ensures t.replicas >= 1 {
      var i :| 0 <= i < |row.targets| && row.targets[i] == t;
      assert ts[i] in ts;
    }
    assert w.row.targets != [] by { NonEmptySplit(w.row.targets); }
    PendingAfterWrite(w, row);
  }

  lemma NonEmptySplit(ts: seq<Target>)
    requires ValidSplit(Split(ts))
    ensures ts != []
  {
  }

  ghost predicate SameVersions(a: seq<Target>, b: seq<Target>) {
    |a| == |b| && forall i :: 0 <= i < |a| ==> a[i].version == b[i].version && a[i].replicas == b[i].replicas
  }

  lemma SameVersionsServe(a: seq<Target>, b: seq<Target>, v: nat)
    requires SameVersions(a, b) && Serves(a, v)
    ensures Serves(b, v)
  {
    var i :| 0 <= i < |a| && a[i].version == v;
    assert b[i] in b;
  }

  /** The versions a rollout writes weights over: the row's, and the named one if it is new. */
  lemma RolloutTargets(w: World, version: nat, traffic: int) returns (ts: seq<Target>)
    requires Live(w)
    ensures RolledOutRow(w.row, version, traffic).targets
         == WithWeights(ts, ApplyRollout(RolloutBase(w.row.targets, version), version, traffic))
    ensures Sorted(ts)
    ensures forall v :: Serves(ts, v) <==> v == version || Serves(w.row.targets, v)
    ensures forall t :: t in ts ==> t.replicas >= 1
  {
    hide Upserted, WithWeights, ApplyRollout, RolloutBase, Named, AllPodsWanted, FrontInStep, RouterInStep,
         RouterJustified, Tidy, ValidId;
    ts := if Serves(w.row.targets, version) then w.row.targets
          else Upserted(w.row.targets, version, 0, w.row.replicas);
    if !Serves(w.row.targets, version) {
      UpsertedSorted(w.row.targets, version, 0, w.row.replicas);
      UpsertedMembers(w.row.targets, version, 0, w.row.replicas);
      hide Serves;
      forall v ensures Serves(ts, v) <==> v == version || Serves(w.row.targets, v) {
        UpsertedServes(w.row.targets, version, 0, w.row.replicas, v);
      }
    }
  }

  // ------------------------------------------------------------- each operation

  lemma RetireKeepsLive(w: World, version: nat)
    requires Live(w)
    ensures Live(Retired(w, version))
    ensures Retired(w, version).row.servingVersion == w.row.servingVersion
    ensures ReadyAt(Retired(w, version).cluster, FrontPods(w.row)) == ReadyAt(w.cluster, FrontPods(w.row))
  {
    hide TargetName, RouterName, FrontName, TargetLabels, RouterLabels, FrontSelector, Replicas, Settings, Tidy,
         DesiredFront, Find, AllPodsWanted, Named, PodsWanted;
    if CanRetire(w.row, version) {
      var t := Find(w.row.targets, version).value;
      var r := Retired(w, version);
      RetiredName(w.row, t);
      RemovalKeepsSettings(w.row, t);
      NamesApart(w.row, version, version);
      SettingsHaveValidId(w.row);
      RetireTidy(w, r, version);
      RetirePods(w, r, version);
      if w.row.servingVersion.Some? {
        NamesApart(w.row, version, w.row.servingVersion.value);
        var u :| u in w.row.targets && u.version == w.row.servingVersion.value;
        assert u in r.row.targets;
      }
    }
  }

  lemma SettingsHaveValidId(row: Row)
    requires Settings(row)
    ensures ValidId(row.id)
  {
  }

  lemma RetiredName(row: Row, t: Target)
    requires Named(row) && t in row.targets
    ensures t.k8sName == Some(TName(row, t.version))
  {
  }

  lemma RetirePods(w: World, r: World, version: nat)
    requires Named(w.row) && AllPodsWanted(w.row, w.cluster)
    requires r.row == w.row.(targets := Removed(w.row.targets, version))
    requires r.cluster == Deleted(w.cluster, TName(w.row, version))
    ensures Named(r.row) && AllPodsWanted(r.row, r.cluster)
  {
    hide TargetName;
    forall u | u in r.row.targets ensures PodsWanted(r.row, r.cluster, u) {
      NamesApart(w.row, version, u.version);
      assert PodsWanted(w.row, w.cluster, u);
    }
  }

  lemma RetireTidy(w: World, r: World, version: nat)
    requires Tidy(w.row, w.cluster) && r.row.id == w.row.id && r.row.name == w.row.name
    requires r.cluster == Deleted(w.cluster, TName(w.row, version))
    ensures Tidy(r.row, r.cluster)
  {
    hide TargetName, RouterName, FrontName, TargetLabels, RouterLabels;
    assert forall v: nat :: TName(w.row, v) == TName(r.row, v);
    forall n | n in r.cluster.deployments && Owned(r.row.id, r.cluster.deployments[n].labels)
      ensures OwnEntry(r.row, n, r.cluster.deployments[n].labels)
    {
      assert OwnEntry(w.row, n, w.cluster.deployments[n].labels);
    }
  }

  /** Removing a version that takes no traffic leaves the rest a complete split. */
  lemma RemovalKeepsSettings(row: Row, t: Target)
    requires Settings(row) && t in row.targets && t.weight <= 0
    ensures Settings(row.(targets := Removed(row.targets, t.version)))
    ensures DesiredFront(row.(targets := Removed(row.targets, t.version))) == DesiredFront(row)
  {
    RemovedIsValid(row.targets, t);
    hide ValidId, Sorted, ValidSplit;
  }

  lemma RemovedIsValid(ts: seq<Target>, t: Target)
    requires Sorted(ts) && ValidSplit(Split(ts)) && t in ts && t.weight <= 0
    ensures Sorted(Removed(ts, t.version)) && ValidSplit(Split(Removed(ts, t.version)))
    ensures Serving(Removed(ts, t.version)) == Serving(ts)
  {
    var r := Removed(ts, t.version);
    assert t.weight == 0 by {
      var i :| 0 <= i < |ts| && ts[i] == t;
      assert Split(ts)[i].weight >= 0;
    }
    RemovedSorted(ts, t.version);
    RemovedWeights(ts, t);
    RemovedRange(ts, t.version);
    hide Removed;
    SortedIsAscending(r);
    assert |Split(r)| == |Weights(Split(r))|;
  }

  lemma PutFirst(t: Target, ts: seq<Target>)
    requires Sorted(ts) && forall u :: u in ts ==> t.version < u.version
    ensures Sorted([t] + ts)
  {
    var r := [t] + ts;
    forall i, j | 0 <= i < j < |r| ensures r[i].version < r[j].version {
      assert r[j] == ts[j - 1];
    }
  }

  lemma RemovedAbove(ts: seq<Target>, version: nat)
    requires Sorted(ts) && ts != []
    ensures forall u :: u in Removed(ts[1..], version) ==> ts[0].version < u.version
  {
    forall u | u in Removed(ts[1..], version) ensures ts[0].version < u.version {
      var k :| 1 <= k < |ts| && ts[k] == u;
    }
  }

  lemma {:induction false} RemovedSorted(ts: seq<Target>, version: nat)
    requires Sorted(ts)
    ensures Sorted(Removed(ts, version))
  {
    if ts != [] {
      RemovedSorted(ts[1..], version);
      RemovedAbove(ts, version);
      hide Removed;
      PutFirst(ts[0], Removed(ts[1..], version));
    }
  }

  lemma RemovedRange(ts: seq<Target>, version: nat)
    requires InRange(Split(ts))
    ensures InRange(Split(Removed(ts, version)))
  {
    var r := Removed(ts, version);
    forall i | 0 <= i < |r| ensures 0 <= Split(r)[i].weight <= TOTAL_WEIGHT {
      assert r[i] in r;
      var k :| 0 <= k < |ts| && ts[k] == r[i];
      assert Split(ts)[k].weight == r[i].weight;
    }
  }

  lemma SplitCons(t: Target, ts: seq<Target>)
    ensures Split([t] + ts) == [Share(t.version, t.weight)] + Split(ts)
    ensures Sum(Weights(Split([t] + ts))) == t.weight + Sum(Weights(Split(ts)))
  {
    assert Split([t] + ts) == [Share(t.version, t.weight)] + Split(ts);
    WeightsCons(Share(t.version, t.weight), Split(ts));
  }

  lemma {:induction false} RemovedWeights(ts: seq<Target>, t: Target)
    requires Sorted(ts) && t in ts && t.weight == 0
    ensures Sum(Weights(Split(Removed(ts, t.version)))) == Sum(Weights(Split(ts)))
    ensures Serving(Removed(ts, t.version)) == Serving(ts)
  {
    hide Sum, Weights, Split;
    assert ts == [ts[0]] + ts[1..];
    SplitCons(ts[0], ts[1..]);
    if ts[0].version == t.version {
      SortedUnique(ts, ts[0], t);
      NothingRemoved(ts[1..], t.version);
    } else {
      assert t in ts[1..];
      RemovedWeights(ts[1..], t);
      SplitCons(ts[0], Removed(ts[1..], t.version));
      assert Removed(ts, t.version) == [ts[0]] + Removed(ts[1..], t.version);
    }
  }

  lemma {:induction false} NothingRemoved(ts: seq<Target>, version: nat)
    requires forall t :: t in ts ==> t.version != version
    ensures Removed(ts, version) == ts
  {
    if ts != [] {
      NothingRemoved(ts[1..], version);
    }
  }

  // ------------------------------------------------------------------- syncing

  lemma AfterMoveStage(w: World)
    requires Shifted(w)
    ensures Placed(AfterMove(w)) && RouterJustified(AfterMove(w).row)
    ensures AfterMove(w).row.targets == w.row.targets
    ensures AfterMove(w).row.servingVersion == w.row.servingVersion
    ensures FrontPods(AfterMove(w).row) == FrontPods(w.row)
    ensures ReadyAt(w.cluster, FrontPods(w.row)) > 0 ==> ReadyAt(AfterMove(w).cluster, FrontPods(w.row)) > 0
  {
    hide ScaledDown, RouterRemoved, Reaped, Placed, RouterJustified, Shifted, ReadyAt, FrontPods;
    ScaleDownStage(w);
    var scaled := w.(cluster := ScaledDown(w, w.row.targets));
    RemovalStage(scaled);
    var removed := RouterRemoved(scaled);
    ReapStage(removed);
  }

  /** A pass leaves the deployment live, and a move leaves the address on something ready. */
  lemma SyncKeepsLive(w: World)
    requires Live(w)
    ensures Live(Synced(w))
    ensures WillMove(ObservedRow(w)) ==> ReadyAt(Synced(w).cluster, FrontPods(Synced(w).row)) > 0
    ensures !WillMove(ObservedRow(w)) ==> Synced(w).cluster == w.cluster && FrontPods(Synced(w).row) == FrontPods(w.row)
    ensures WillMove(ObservedRow(w)) ==> CurrentFront(Synced(w).row) == DesiredFront(Synced(w).row)
    ensures DesiredFront(Synced(w).row) == DesiredFront(ObservedRow(w))
  {
    hide ObservedRow, WillMove, AfterMove, Moved, Shifted, ReadyAt, FrontPods, RouterJustified, DesiredFront,
         Settings, Named, AllPodsWanted, FrontReady, RouterInStep, Tidy, Judged;
    LiveIsActive(w);
    ObservationKeepsLive(w);
    var seen := w.(row := ObservedRow(w));
    if WillMove(seen.row) {
      MoveIsReady(w);
      MoveStage(seen);
      var moved := Moved(seen);
      AfterMoveStage(moved);
      var after := AfterMove(moved);
      SameDesiredFront(after.row, moved.row);
      JudgeStage(after, w.row.status);
      JudgedKeepsJustified(after, w.row.status);
      SameCurrentFront(Judged(after, w.row.status).row, moved.row);
    } else {
      JudgeStage(seen, w.row.status);
      JudgedKeepsJustified(seen, w.row.status);
    }
  }

  lemma MoveIsReady(w: World)
    requires Live(w) && WillMove(ObservedRow(w))
    ensures Live(w.(row := ObservedRow(w)))
    ensures ReadyAt(w.cluster, PodsOf(ObservedRow(w), DesiredFront(ObservedRow(w)))) > 0
  {
    hide Live, ObservedRow, ReadyAt, DesiredFront, FrontReady, PodsOf;
    ObservationKeepsLive(w);
    ReadyIsEvidence(w, DesiredFront(ObservedRow(w)));
    SamePods(w, DesiredFront(ObservedRow(w)));
  }

  lemma SamePods(w: World, f: Front)
    ensures PodsOf(ObservedRow(w), f) == PodsOf(w.row, f)
  {
  }

  lemma LiveIsActive(w: World)
    requires Live(w)
    ensures Active(w.row)
  {
  }

  lemma SameDesiredFront(row: Row, other: Row)
    requires row.targets == other.targets
    ensures DesiredFront(row) == DesiredFront(other)
  {
  }

  lemma SameCurrentFront(row: Row, other: Row)
    requires row.servingVersion == other.servingVersion && row.k8sName.Some? && other.k8sName.Some?
    ensures CurrentFront(row) == CurrentFront(other)
  {
  }

  lemma JudgedKeepsJustified(w: World, previous: Status)
    requires RouterJustified(w.row)
    ensures RouterJustified(Judged(w, previous).row)
  {
    hide Judge;
    SameDesiredFront(w.row, Judged(w, previous).row);
  }

  // ------------------------------------------------------------------- theorems

  /**
   What the environment may do: change how many pods are ready and why, and anything that
   belongs to other deployments.
   */
  ghost predicate EnvironmentStep(w: World, c: State) {
    && Tidy(w.row, c)
    && (FName(w.row) in c.services <==> FName(w.row) in w.cluster.services)
    && (FName(w.row) in c.services ==> c.services[FName(w.row)] == w.cluster.services[FName(w.row)])
    && (forall v: nat :: TName(w.row, v) in w.cluster.deployments ==>
         TName(w.row, v) in c.deployments
         && c.deployments[TName(w.row, v)].desired == w.cluster.deployments[TName(w.row, v)].desired)
    && (RName(w.row) in w.cluster.deployments <==> RName(w.row) in c.deployments)
    && (RName(w.row) in w.cluster.deployments ==>
         c.deployments[RName(w.row)].desired == w.cluster.deployments[RName(w.row)].desired)
  }

  ghost predicate Allowed(w: World, step: Step) {
    step.Environment? ==> EnvironmentStep(w, step.cluster)
  }

  lemma EnvironmentKeepsInv(w: World, c: State)
    requires Inv(w) && EnvironmentStep(w, c)
    ensures Inv(w.(cluster := c))
  {
    hide TargetName, RouterName, FrontName, FrontSelector, ValidId, Tidy, Settings, Named, DesiredFront, Replicas;
    if Live(w) {
      forall t | t in w.row.targets ensures PodsWanted(w.row, c, t) {
        assert PodsWanted(w.row, w.cluster, t);
      }
    }
  }

  /** Every operation keeps the row a complete split, and the cluster in step with it. */
  lemma StepKeepsInv(w: World, step: Step)
    requires Inv(w) && Allowed(w, step)
    ensures Inv(Next(w, step))
  {
    hide ApplyDesiredState, Synced, Retired, DeployedRow, RolledOutRow, Live, Fresh, EnvironmentStep, Pending;
    match step
    case Deploy(version, replicas, admitted, apiUrl) =>
      if replicas >= 1 && admitted {
        DeployIsPending(w, version, replicas);
        ApplyMakesLive(w.(row := DeployedRow(w.row, version, replicas)), apiUrl);
      }
    case Rollout(version, traffic, admitted, apiUrl) =>
      if RolledOut(w, version, traffic, admitted, apiUrl) != w {
        ExistsIsLive(w);
        RolloutIsPending(w, version, traffic);
        ApplyMakesLive(w.(row := RolledOutRow(w.row, version, traffic)), apiUrl);
      }
    case Retire(version) =>
      if Live(w) { RetireKeepsLive(w, version); } else { FreshIsIdle(w, version); }
    case Sync =>
      if Live(w) { SyncKeepsLive(w); } else { FreshIsIdle(w, 0); }
    case Environment(cluster) => EnvironmentKeepsInv(w, cluster);
  }

  lemma ExistsIsLive(w: World)
    requires Inv(w) && Exists(w.row)
    ensures Live(w)
  {
    hide Tidy;
  }

  lemma FreshIsIdle(w: World, version: nat)
    requires Fresh(w)
    ensures Retired(w, version) == w && Synced(w) == w
  {
    hide Tidy;
  }

  lemma {:induction false} RunKeepsInv(w: World, steps: seq<Step>)
    requires Inv(w)
    requires forall k :: 0 <= k < |steps| ==> Allowed(Run(w, steps[..k]), steps[k])
    ensures Inv(Run(w, steps))
  {
    hide Inv, Allowed, Next;
    if steps != [] {
      var n := |steps| - 1;
      forall k | 0 <= k < n ensures Allowed(Run(w, steps[..n][..k]), steps[..n][k]) {
        assert steps[..n][..k] == steps[..k];
        assert Allowed(Run(w, steps[..k]), steps[k]);
      }
      RunKeepsInv(w, steps[..n]);
      assert Allowed(Run(w, steps[..n]), steps[n]);
      StepKeepsInv(Run(w, steps[..n]), steps[n]);
    }
  }

  lemma FreshDoesNotAnswer(w: World)
    requires Fresh(w)
    ensures !AddressAnswers(w)
  {
    hide Tidy;
  }

  lemma LiveAnswers(w: World)
    requires Live(w)
    ensures w.row.k8sName.Some?
    ensures AddressAnswers(w) <==> ReadyAt(w.cluster, FrontPods(w.row)) > 0
  {
    hide AddressAnswers, Tidy, ReadyAt, FrontPods;
    AnswersIffReady(w.row, w.cluster);
  }

  lemma ApplyKeepsAnswering(w: World, row: Row, apiUrl: bool)
    requires Live(w) && AddressAnswers(w) && Pending(w.(row := row))
    requires FrontPods(row) == FrontPods(w.row) && row.servingVersion == w.row.servingVersion && row.k8sName == w.row.k8sName
    requires row.id == w.row.id && row.name == w.row.name
    ensures AddressAnswers(ApplyDesiredState(w.(row := row), apiUrl))
  {
    hide AddressAnswers, ApplyDesiredState, Live, Pending, ReadyAt;
    var asked := w.(row := row);
    LiveAnswers(w);
    ApplyMakesLive(asked, apiUrl);
    ApplyKeepsFrontReady(asked, apiUrl);
    ApplyKeepsNames(asked, apiUrl);
    LiveAnswers(ApplyDesiredState(asked, apiUrl));
  }

  lemma ApplyKeepsNames(w: World, apiUrl: bool)
    ensures ApplyDesiredState(w, apiUrl).row.id == w.row.id && ApplyDesiredState(w, apiUrl).row.name == w.row.name
  {
    hide LaunchAll, DesiredFront, Judge, Doomed, VersionOf;
    LaunchKeepsRow(w, w.row.targets);
  }

  /**
   No deploy, rollout, promotion, retirement or sync pass takes the address's last ready
   endpoint away.
   */
  lemma StepKeepsAnswering(w: World, step: Step)
    requires Inv(w) && AddressAnswers(w) && !step.Environment?
    ensures AddressAnswers(Next(w, step))
  {
    hide ApplyDesiredState, Synced, Retired, Live, Fresh, Pending, AddressAnswers, ReadyAt, FrontPods,
         WillMove, ObservedRow;
    if Fresh(w) { FreshDoesNotAnswer(w); }
    LiveAnswers(w);
    match step
    case Deploy(version, replicas, admitted, apiUrl) =>
      if replicas >= 1 && admitted {
        DeployIsPending(w, version, replicas);
        ApplyKeepsAnswering(w, DeployedRow(w.row, version, replicas), apiUrl);
      }
    case Rollout(version, traffic, admitted, apiUrl) =>
      if RolledOut(w, version, traffic, admitted, apiUrl) != w {
        RolloutIsPending(w, version, traffic);
        ApplyKeepsAnswering(w, RolledOutRow(w.row, version, traffic), apiUrl);
      }
    case Retire(version) =>
      RetireKeepsLive(w, version);
      RetiredFront(w, version);
      LiveAnswers(Retired(w, version));
    case Sync =>
      SyncKeepsLive(w);
      LiveAnswers(Synced(w));
  }

  lemma RetiredFront(w: World, version: nat)
    ensures FrontPods(Retired(w, version).row) == FrontPods(w.row)
  {
    hide CanRetire;
  }

  /** Over any run of operations an address that answers goes on answering. */
  lemma {:induction false} RunKeepsAnswering(w: World, steps: seq<Step>)
    requires Inv(w) && AddressAnswers(w)
    requires forall k :: 0 <= k < |steps| ==> !steps[k].Environment?
    ensures Inv(Run(w, steps)) && AddressAnswers(Run(w, steps))
  {
    hide Inv, AddressAnswers, Next;
    if steps != [] {
      var n := |steps| - 1;
      RunKeepsAnswering(w, steps[..n]);
      StepKeepsInv(Run(w, steps[..n]), steps[n]);
      StepKeepsAnswering(Run(w, steps[..n]), steps[n]);
    }
  }

  /** Every move lands on pods with one ready in that same pass, and the address answers. */
  lemma MovesOntoReadyPods(w: World)
    requires Live(w) && CurrentFront(Synced(w).row) != CurrentFront(w.row)
    ensures ReadyAt(w.cluster, FrontPods(Synced(w).row)) > 0
    ensures CurrentFront(Synced(w).row) == DesiredFront(w.row)
    ensures AddressAnswers(Synced(w))
  {
    hide Live, AddressAnswers, ReadyAt, FrontPods, DesiredFront, FrontReady, PodsOf, Synced, ObservedRow, WillMove,
         CurrentFront;
    SyncKeepsLive(w);
    LiveAnswers(w);
    LiveAnswers(Synced(w));
    ObservationKeepsLive(w);
    SameTargetsFacts(ObservedRow(w), w.row);
    LiveIsActive(w);
    if !WillMove(ObservedRow(w)) {
      StaysPutWithoutMove(w);
    } else {
      MoveIsReady(w);
      SyncKeepsNames(w);
      PodsOfCurrent(Synced(w).row, ObservedRow(w));
    }
  }

  lemma PodsOfCurrent(row: Row, other: Row)
    requires row.k8sName.Some?
    ensures row.id == other.id && row.name == other.name ==> FrontPods(row) == PodsOf(other, CurrentFront(row))
  {
  }

  lemma SyncKeepsNames(w: World)
    ensures Synced(w).row.id == w.row.id && Synced(w).row.name == w.row.name
    ensures ObservedRow(w).id == w.row.id && ObservedRow(w).name == w.row.name
  {
    hide Judge, ObservedTargets, StatusFromObservation, WillMove, Doomed, ScaledDown, VersionOf;
  }

  lemma StaysPutWithoutMove(w: World)
    requires Active(w.row) && !WillMove(ObservedRow(w))
    ensures CurrentFront(Synced(w).row) == CurrentFront(w.row)
  {
    hide WillMove, Judge, ObservedTargets, StatusFromObservation;
  }
}
