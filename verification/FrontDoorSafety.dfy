/**
 The address of a deployment never loses what answers it.

 Over every run, every operation keeps the row and the cluster in step (`Live`), and no
 deploy, rollout, promotion, retirement or sync pass turns an address with ready endpoints
 into one with none.
 */
module FrontDoorSafety {
  import opened Prelude
  import opened Names
  import opened Cluster
  import opened Routing
  import opened DeploymentRows
  import opened FrontDoor

  // ------------------------------------------------------------- the invariant

  /** Labels that say a Deployment belongs to this deployment. */
  predicate Owned(id: string, labels: Labels) {
    DeploymentId in labels && labels[DeploymentId] == id
  }

  ghost predicate OwnEntry(row: Row, n: string, labels: Labels) {
    || (n == RName(row) && labels == RouterLabels(row.id))
    || (exists v: nat :: n == TName(row, v) && labels == TargetLabels(row.id, v))
  }

  /** Names and labels agree, in both directions, for everything this deployment owns. */
  ghost predicate Tidy(row: Row, c: State) {
    && (forall n :: n in c.deployments && Owned(row.id, c.deployments[n].labels)
         ==> OwnEntry(row, n, c.deployments[n].labels))
    && (forall v: nat :: TName(row, v) in c.deployments
         ==> c.deployments[TName(row, v)].labels == TargetLabels(row.id, v))
    && (RName(row) in c.deployments ==> c.deployments[RName(row)].labels == RouterLabels(row.id))
  }

  /** A complete split over distinct versions, each given at least one replica. */
  ghost predicate Settings(row: Row) {
    && ValidId(row.id)
    && Sorted(row.targets)
    && ValidSplit(Split(row.targets))
    && row.replicas >= 1
    && (forall t :: t in row.targets ==> t.replicas >= 1)
    && row.status != STOPPED
  }

  ghost predicate Named(row: Row) {
    forall t :: t in row.targets ==> t.k8sName == Some(TName(row, t.version))
  }

  /** The version's Deployment exists and wants as many pods as the replica rule says. */
  ghost predicate PodsWanted(row: Row, c: State, t: Target) {
    TName(row, t.version) in c.deployments
    && c.deployments[TName(row, t.version)].desired == Replicas(row, t)
  }

  ghost predicate AllPodsWanted(row: Row, c: State) {
    forall t :: t in row.targets ==> PodsWanted(row, c, t)
  }

  /** The address exists, selects what the row says, and that is a version being served. */
  ghost predicate FrontInStep(row: Row, c: State) {
    && row.k8sName == Some(FName(row))
    && FName(row) in c.services
    && c.services[FName(row)] == FrontSelector(row.id, row.servingVersion)
    && (row.servingVersion.Some? ==> Serves(row.targets, row.servingVersion.value))
    && (row.servingVersion.None? ==> row.routerName.Some?)
  }

  ghost predicate RouterInStep(row: Row, c: State) {
    && (row.routerName.None? ==> row.routerReady == 0 && RName(row) !in c.deployments)
    && (row.routerName.Some? ==>
         && row.routerName == Some(RName(row))
         && RName(row) in c.deployments
         && c.deployments[RName(row)].desired == ROUTER_REPLICAS)
  }

  /** A router exists only where one is wanted or still selected. */
  ghost predicate RouterJustified(row: Row) {
    row.routerName.Some? ==> row.servingVersion.None? || DesiredFront(row) == OnRouter
  }

  /** A deployment that has been launched, with row and cluster in step. */
  ghost predicate Live(w: World) {
    && Settings(w.row) && Named(w.row)
    && AllPodsWanted(w.row, w.cluster)
    && FrontInStep(w.row, w.cluster)
    && RouterInStep(w.row, w.cluster)
    && RouterJustified(w.row)
    && Tidy(w.row, w.cluster)
  }

  /** A deployment nobody has deployed to yet. */
  ghost predicate Fresh(w: World) {
    && ValidId(w.row.id)
    && w.row.targets == [] && w.row.k8sName == None && w.row.servingVersion == None
    && w.row.routerName == None && w.row.routerReady == 0 && w.row.status != STOPPED
    && FName(w.row) !in w.cluster.services && RName(w.row) !in w.cluster.deployments
    && Tidy(w.row, w.cluster)
  }

  ghost predicate Inv(w: World) {
    Fresh(w) || Live(w)
  }

  // -------------------------------------------- what the address resolves to

  /** The address answers: its Service exists and has a ready endpoint. */
  ghost predicate AddressAnswers(w: World) {
    FName(w.row) in w.cluster.services && Endpoints(w.cluster, w.cluster.services[FName(w.row)]) != {}
  }

  /** The Deployment the address resolves to. */
  function FrontPods(row: Row): string {
    if row.servingVersion.Some? then TName(row, row.servingVersion.value) else RName(row)
  }

  function ReadyAt(c: State, n: string): nat {
    if n in c.deployments then c.deployments[n].ready else 0
  }

  lemma SelectorsAreSpecific(id: string, v: nat, w: nat)
    ensures Matches(FrontSelector(id, Some(v)), TargetLabels(id, w)) <==> v == w
    ensures !Matches(FrontSelector(id, Some(v)), RouterLabels(id))
    ensures !Matches(FrontSelector(id, None), TargetLabels(id, w))
    ensures Matches(FrontSelector(id, None), RouterLabels(id))
  {
    assert FrontSelector(id, Some(v))[ModelVersion] == Decimal(v);
    assert TargetLabels(id, w)[ModelVersion] == Decimal(w);
    if Decimal(v) == Decimal(w) { DecimalInjective(v, w); }
    assert ModelVersion in FrontSelector(id, Some(v)) && ModelVersion !in RouterLabels(id);
    assert FrontSelector(id, None)[Component] != TargetLabels(id, w)[Component];
    assert DeploymentId in FrontSelector(id, None);
    assert DeploymentId in FrontSelector(id, Some(v));
  }

  lemma SelectedAreOwned(id: string, version: Option<nat>, labels: Labels)
    requires Matches(FrontSelector(id, version), labels)
    ensures Owned(id, labels)
  {
    assert DeploymentId in FrontSelector(id, version);
  }

  /** For a live deployment the address answers exactly when the pods it stands for are ready. */
  lemma AnswersIffReady(row: Row, c: State)
    requires FrontInStep(row, c) && Tidy(row, c)
    ensures AddressAnswers(World(row, c)) <==> ReadyAt(c, FrontPods(row)) > 0
  {
    hide FrontSelector, TargetLabels, RouterLabels, Matches, FrontName, TargetName, RouterName;
    var selector := FrontSelector(row.id, row.servingVersion);
    var n := FrontPods(row);
    if ReadyAt(c, n) > 0 {
      SelectorsAreSpecific(row.id, if row.servingVersion.Some? then row.servingVersion.value else 0, 
                           if row.servingVersion.Some? then row.servingVersion.value else 0);
      assert n in Endpoints(c, selector);
    }
    if e :| e in Endpoints(c, selector) {
      SelectedAreOwned(row.id, row.servingVersion, c.deployments[e].labels);
      assert OwnEntry(row, e, c.deployments[e].labels);
      EntryIsFront(row, e, c.deployments[e].labels);
    }
  }

  lemma EntryIsFront(row: Row, n: string, labels: Labels)
    requires OwnEntry(row, n, labels) && Matches(FrontSelector(row.id, row.servingVersion), labels)
    ensures n == FrontPods(row)
  {
    hide FrontSelector, TargetLabels, RouterLabels, Matches, TargetName, RouterName;
    var v := if row.servingVersion.Some? then row.servingVersion.value else 0;
    if u: nat :| n == TName(row, u) && labels == TargetLabels(row.id, u) {
      SelectorsAreSpecific(row.id, v, u);
    } else {
      SelectorsAreSpecific(row.id, v, v);
    }
  }

  // ------------------------------------------------------ launching the versions

  lemma NamesApart(row: Row, v: nat, w: nat)
    ensures TName(row, v) == TName(row, w) ==> v == w
    ensures TName(row, v) != RName(row)
    ensures RName(row) != FName(row)
    ensures ValidId(row.id) ==> TName(row, v) != FName(row)
  {
    hide TargetName, RouterName, FrontName;
    if TName(row, v) == TName(row, w) { TargetNamesDistinct(row.id, row.name, v, w); }
    RouterNameIsItsOwn(row.id, row.name, v);
    if ValidId(row.id) { FrontNameIsNoTarget(row.id, row.name, v); }
  }

  lemma {:induction false} LaunchKeepsRow(w: World, ts: seq<Target>)
    ensures LaunchAll(w, ts).row == w.row.(targets := LaunchAll(w, ts).row.targets)
    ensures |LaunchAll(w, ts).row.targets| == |w.row.targets|
    ensures forall i :: 0 <= i < |w.row.targets| ==>
      LaunchAll(w, ts).row.targets[i] == w.row.targets[i].(k8sName := LaunchAll(w, ts).row.targets[i].k8sName)
  {
    hide TargetName;
    if ts != [] {
      LaunchKeepsRow(w, ts[..|ts| - 1]);
    }
  }

  lemma {:induction false} LaunchNames(w: World, ts: seq<Target>, i: nat)
    requires i < |w.row.targets|
    requires exists t :: t in ts && t.version == w.row.targets[i].version
    ensures LaunchAll(w, ts).row.targets[i].k8sName == Some(TName(w.row, w.row.targets[i].version))
  {
    hide TargetName;
    var n := |ts| - 1;
    LaunchKeepsRow(w, ts[..n]);
    LaunchKeepsRow(w, ts);
    if ts[n].version != w.row.targets[i].version {
      var t :| t in ts && t.version == w.row.targets[i].version;
      assert t in ts[..n];
      LaunchNames(w, ts[..n], i);
    }
  }

  /** Launching touches nothing but the named versions' own objects. */
  lemma {:induction false} LaunchElsewhere(w: World, ts: seq<Target>, n: string)
    requires forall t :: t in ts ==> n != TName(w.row, t.version)
    ensures n in LaunchAll(w, ts).cluster.deployments <==> n in w.cluster.deployments
    ensures n in w.cluster.deployments ==> LaunchAll(w, ts).cluster.deployments[n] == w.cluster.deployments[n]
    ensures n in LaunchAll(w, ts).cluster.services <==> n in w.cluster.services
    ensures n in w.cluster.services ==> LaunchAll(w, ts).cluster.services[n] == w.cluster.services[n]
  {
    hide TargetName, TargetLabels, TargetSelector, Replicas;
    if ts != [] {
      var k := |ts| - 1;
      LaunchElsewhere(w, ts[..k], n);
      LaunchKeepsRow(w, ts[..k]);
      assert ts[k] in ts;
    }
  }

  /** A launched version wants what the rule says and keeps its ready pods, up to that many. */
  lemma {:induction false} LaunchedAt(w: World, ts: seq<Target>, t: Target)
    requires Sorted(ts) && t in ts
    ensures var c := LaunchAll(w, ts).cluster;
      var n := TName(w.row, t.version);
      && n in c.deployments
      && c.deployments[n].desired == Replicas(w.row, t)
      && c.deployments[n].ready == Min(ReadyAt(w.cluster, n), Replicas(w.row, t))
      && c.deployments[n].labels == TargetLabels(w.row.id, t.version)
  {
    hide TargetName, TargetLabels, TargetSelector;
    var k := |ts| - 1;
    var n := TName(w.row, t.version);
    LaunchKeepsRow(w, ts[..k]);
    if t == ts[k] {
      forall u | u in ts[..k] ensures n != TName(w.row, u.version) {
        var i :| 0 <= i < k && ts[i] == u;
        NamesApart(w.row, t.version, u.version);
      }
      LaunchElsewhere(w, ts[..k], n);
    } else {
      assert t in ts[..k];
      var i :| 0 <= i < k && ts[i] == t;
      NamesApart(w.row, t.version, ts[k].version);
      LaunchedAt(w, ts[..k], t);
    }
  }

  // --------------------------------------------------------- unchanged settings

  /** Two lists that agree on everything but what was observed or recorded of each version. */
  ghost predicate SameTargets(a: seq<Target>, b: seq<Target>) {
    && |a| == |b|
    && forall i :: 0 <= i < |a| ==>
         a[i].version == b[i].version && a[i].weight == b[i].weight && a[i].replicas == b[i].replicas
  }

  lemma SameTargetsCons(x: Target, y: Target, a: seq<Target>, b: seq<Target>)
    requires SameTargets([x], [y]) && SameTargets(a, b)
    ensures SameTargets([x] + a, [y] + b)
  {
    assert [x][0].version == [y][0].version;
  }

  lemma {:induction false} SameServing(a: seq<Target>, b: seq<Target>)
    requires SameTargets(a, b)
    ensures SameTargets(Serving(a), Serving(b))
  {
    if a != [] {
      assert SameTargets(a[1..], b[1..]);
      SameServing(a[1..], b[1..]);
      assert SameTargets([a[0]], [b[0]]);
      SameTargetsCons(a[0], b[0], Serving(a[1..]), Serving(b[1..]));
    }
  }

  lemma SameTargetsFacts(row: Row, other: Row)
    requires SameTargets(row.targets, other.targets)
    ensures Split(row.targets) == Split(other.targets)
    ensures Sorted(row.targets) <==> Sorted(other.targets)
    ensures DesiredFront(row) == DesiredFront(other)
    ensures forall v :: Serves(row.targets, v) <==> Serves(other.targets, v)
    ensures (forall t :: t in row.targets ==> t.replicas >= 1) ==> forall t :: t in other.targets ==> t.replicas >= 1
  {
    SameServing(row.targets, other.targets);
    forall v ensures Serves(row.targets, v) <==> Serves(other.targets, v) {
      if Serves(row.targets, v) {
        var i :| 0 <= i < |row.targets| && row.targets[i].version == v;
        assert other.targets[i] in other.targets;
      }
      if Serves(other.targets, v) {
        var i :| 0 <= i < |row.targets| && other.targets[i].version == v;
        assert row.targets[i] in row.targets;
      }
    }
    if forall t :: t in row.targets ==> t.replicas >= 1 {
      forall t | t in other.targets ensures t.replicas >= 1 {
        var i :| 0 <= i < |row.targets| && other.targets[i] == t;
        assert row.targets[i] in row.targets;
      }
    }
  }

  // ----------------------------------------------------- applying, stage by stage

  /** The address has not been created yet. */
  ghost predicate FrontAbsent(row: Row, c: State) {
    && row.k8sName == None && row.servingVersion == None && row.routerName == None
    && FName(row) !in c.services && DesiredFront(row).OnVersion?
  }

  /** A row that asks for something, before the cluster has been made to match it. */
  ghost predicate Pending(w: World) {
    && Settings(w.row)
    && RouterInStep(w.row, w.cluster)
    && Tidy(w.row, w.cluster)
    && (FrontAbsent(w.row, w.cluster) || FrontInStep(w.row, w.cluster))
  }

  ghost predicate Launched(w: World) {
    Pending(w) && Named(w.row) && AllPodsWanted(w.row, w.cluster)
  }

  lemma LaunchTidy(w: World)
    requires Sorted(w.row.targets) && Tidy(w.row, w.cluster)
    ensures Tidy(w.row, LaunchAll(w, w.row.targets).cluster)
  {
    hide TargetName, RouterName, TargetLabels, RouterLabels, LaunchAll;
    var ts, c := w.row.targets, LaunchAll(w, w.row.targets).cluster;
    forall v: nat | TName(w.row, v) in c.deployments
      ensures c.deployments[TName(w.row, v)].labels == TargetLabels(w.row.id, v)
    {
      if t :| t in ts && TName(w.row, v) == TName(w.row, t.version) {
        NamesApart(w.row, v, t.version);
        LaunchedAt(w, ts, t);
      } else {
        LaunchElsewhere(w, ts, TName(w.row, v));
      }
    }
    forall t | t in ts ensures RName(w.row) != TName(w.row, t.version) {
      NamesApart(w.row, t.version, 0);
    }
    LaunchElsewhere(w, ts, RName(w.row));
    forall n | n in c.deployments && Owned(w.row.id, c.deployments[n].labels)
      ensures OwnEntry(w.row, n, c.deployments[n].labels)
    {
      if t :| t in ts && n == TName(w.row, t.version) {
        LaunchedAt(w, ts, t);
      } else {
        LaunchElsewhere(w, ts, n);
      }
    }
  }

  lemma LaunchStage(w: World)
    requires Pending(w)
    ensures Launched(LaunchAll(w, w.row.targets))
    ensures SameTargets(LaunchAll(w, w.row.targets).row.targets, w.row.targets)
    ensures FrontPods(LaunchAll(w, w.row.targets).row) == FrontPods(w.row)
  {
    hide TargetName, RouterName, FrontName, TargetLabels, RouterLabels, FrontSelector, LaunchAll, DesiredFront,
         ValidSplit, ValidId, Sorted, Tidy;
    var ts, r := w.row.targets, LaunchAll(w, w.row.targets);
    LaunchKeepsRow(w, ts);
    SameTargetsFacts(w.row, r.row);
    LaunchTidy(w);
    TidyFollowsNames(w.row, r.row, r.cluster);
    forall t | t in ts ensures FName(w.row) != TName(w.row, t.version) && RName(w.row) != TName(w.row, t.version) {
      NamesApart(w.row, t.version, 0);
    }
    LaunchElsewhere(w, ts, FName(w.row));
    LaunchElsewhere(w, ts, RName(w.row));
    forall t | t in r.row.targets
      ensures t.k8sName == Some(TName(w.row, t.version)) && PodsWanted(r.row, r.cluster, t)
    {
      LaunchedTarget(w, t);
    }
  }

  lemma LaunchedTarget(w: World, t: Target)
    requires Pending(w) && t in LaunchAll(w, w.row.targets).row.targets
    ensures var r := LaunchAll(w, w.row.targets);
      t.k8sName == Some(TName(w.row, t.version)) && PodsWanted(r.row, r.cluster, t)
  {
    hide TargetName, RouterName, FrontName, TargetLabels, RouterLabels, FrontSelector, LaunchAll, DesiredFront,
         ValidSplit, ValidId, Tidy;
    var ts, r := w.row.targets, LaunchAll(w, w.row.targets);
    LaunchKeepsRow(w, ts);
    var i :| 0 <= i < |ts| && r.row.targets[i] == t;
    assert ts[i] in ts;
    LaunchNames(w, ts, i);
    LaunchedAt(w, ts, ts[i]);
  }

  lemma TidyFollowsNames(row: Row, other: Row, c: State)
    requires row.id == other.id && row.name == other.name && Tidy(row, c)
    ensures Tidy(other, c)
  {
    hide TargetName, RouterName, TargetLabels, RouterLabels;
    assert forall v: nat :: TName(row, v) == TName(other, v);
    forall n | n in c.deployments && Owned(other.id, c.deployments[n].labels)
      ensures OwnEntry(other, n, c.deployments[n].labels)
    {
      assert OwnEntry(row, n, c.deployments[n].labels);
      if v: nat :| n == TName(row, v) && c.deployments[n].labels == TargetLabels(row.id, v) {
        assert n == TName(other, v);
      }
    }
  }

  /** Launching never takes the last ready pod from the version the address resolves to. */
  lemma LaunchKeepsFrontReady(w: World)
    requires Pending(w) && w.row.k8sName.Some? && ReadyAt(w.cluster, FrontPods(w.row)) > 0
    ensures ReadyAt(LaunchAll(w, w.row.targets).cluster, FrontPods(w.row)) > 0
  {
    hide TargetName, RouterName, FrontName, TargetLabels, RouterLabels, FrontSelector, LaunchAll, DesiredFront,
         ValidSplit, ValidId, Tidy;
    var ts := w.row.targets;
    if w.row.servingVersion.Some? {
      var t :| t in ts && t.version == w.row.servingVersion.value;
      LaunchedAt(w, ts, t);
    } else {
      forall t | t in ts ensures RName(w.row) != TName(w.row, t.version) {
        NamesApart(w.row, t.version, 0);
      }
      LaunchElsewhere(w, ts, RName(w.row));
    }
  }

  /** Applying the router leaves every version and the address as they were. */
  lemma RouterStage(w: World)
    requires Launched(w)
    ensures Launched(RouterApplied(w))
    ensures DesiredFront(w.row).OnRouter? ==> RouterApplied(w).row.routerName.Some?
    ensures RouterApplied(w).row.targets == w.row.targets
    ensures RouterApplied(w).row.servingVersion == w.row.servingVersion
    ensures RouterApplied(w).row.k8sName == w.row.k8sName
    ensures FrontPods(RouterApplied(w).row) == FrontPods(w.row)
    ensures ReadyAt(w.cluster, FrontPods(w.row)) > 0
        ==> ReadyAt(RouterApplied(w).cluster, FrontPods(w.row)) > 0
  {
    hide TargetName, RouterName, FrontName, TargetLabels, RouterLabels, FrontSelector, ValidSplit, ValidId, Sorted,
         Serving;
    var r := RouterApplied(w);
    if DesiredFront(w.row).OnRouter? {
      forall v: nat ensures TName(w.row, v) != RName(w.row) && RName(w.row) != FName(w.row) {
        NamesApart(w.row, v, v);
      }
      assert r.cluster.services == w.cluster.services;
      assert forall n :: n != RName(w.row) ==> (n in r.cluster.deployments <==> n in w.cluster.deployments);
      assert forall v: nat :: TName(r.row, v) == TName(w.row, v);
      RouterTidy(w, r);
    }
  }

  lemma RouterTidy(w: World, r: World)
    requires Tidy(w.row, w.cluster) && r.row.id == w.row.id && r.row.name == w.row.name
    requires forall n :: n != RName(w.row) ==>
      (n in r.cluster.deployments <==> n in w.cluster.deployments)
      && (n in w.cluster.deployments ==> r.cluster.deployments[n] == w.cluster.deployments[n])
    requires RName(w.row) in r.cluster.deployments ==>
      r.cluster.deployments[RName(w.row)].labels == RouterLabels(w.row.id)
    ensures Tidy(r.row, r.cluster)
  {
    hide TargetName, RouterName, FrontName, TargetLabels, RouterLabels;
    forall v: nat ensures TName(w.row, v) != RName(w.row) && TName(r.row, v) == TName(w.row, v) {
      NamesApart(w.row, v, v);
    }
    forall n | n in r.cluster.deployments && Owned(r.row.id, r.cluster.deployments[n].labels)
      ensures OwnEntry(r.row, n, r.cluster.deployments[n].labels)
    {
      if n != RName(w.row) {
        assert OwnEntry(w.row, n, w.cluster.deployments[n].labels);
      }
    }
  }

  /** A live deployment but for a router that may no longer be justified. */
  ghost predicate Placed(w: World) {
    && Settings(w.row) && Named(w.row)
    && AllPodsWanted(w.row, w.cluster)
    && FrontInStep(w.row, w.cluster)
    && RouterInStep(w.row, w.cluster)
    && Tidy(w.row, w.cluster)
  }

  lemma SortedUnique(ts: seq<Target>, s: Target, t: Target)
    requires Sorted(ts) && s in ts && t in ts && s.version == t.version
    ensures s == t
  {
    var i :| 0 <= i < |ts| && ts[i] == s;
    var j :| 0 <= j < |ts| && ts[j] == t;
    assert i == j;
  }

  lemma SoleServing(row: Row)
    requires DesiredFront(row).OnVersion? && Sorted(row.targets)
    ensures Serves(row.targets, DesiredFront(row).version)
    ensures forall t :: t in row.targets ==> (t.weight > 0 <==> t.version == DesiredFront(row).version)
  {
    var serving := Serving(row.targets);
    assert serving[0] in serving;
    forall t | t in row.targets ensures t.weight > 0 <==> t.version == serving[0].version {
      if t.weight > 0 {
        assert t in serving;
      }
      if t.version == serving[0].version {
        SortedUnique(row.targets, t, serving[0]);
      }
    }
  }

  /** Creating the address, where there was none, points it at the version to be served. */
  lemma FrontStage(w: World)
    requires Launched(w)
    ensures Placed(FrontCreated(w))
    ensures w.row.k8sName.Some? ==> FrontCreated(w) == w
    ensures FrontCreated(w).row.targets == w.row.targets
    ensures FrontCreated(w).row.routerName == w.row.routerName
  {
    hide TargetName, RouterName, FrontName, TargetLabels, RouterLabels, FrontSelector, ValidSplit, ValidId, Sorted,
         DesiredFront;
    var r := FrontCreated(w);
    if w.row.k8sName.None? {
      SoleServing(w.row);
      TidyFollowsNames(w.row, r.row, r.cluster);
      forall t | t in r.row.targets ensures PodsWanted(r.row, r.cluster, t) && t.k8sName == Some(TName(r.row, t.version)) {
        assert PodsWanted(w.row, w.cluster, t);
      }
    }
  }

  lemma {:induction false} PositiveServing(ts: seq<Target>)
    requires Sum(Weights(Split(ts))) > 0
    ensures Serving(ts) != []
  {
    if Serving(ts) == [] {
      forall i | 0 <= i < |ts| ensures ts[i].weight <= 0 {
        assert ts[i] in ts;
      }
      NonPositiveSum(Weights(Split(ts)));
    }
  }

  lemma {:induction false} NonPositiveSum(ws: seq<int>)
    requires forall i :: 0 <= i < |ws| ==> ws[i] <= 0
    ensures Sum(ws) <= 0
  {
    if ws != [] {
      NonPositiveSum(ws[..|ws| - 1]);
    }
  }

  /** While some version takes traffic a deployment is never judged to have stopped. */
  lemma NeverJudgedStopped(row: Row, previous: Status)
    requires ValidSplit(Split(row.targets))
    ensures Judge(row, previous).status != STOPPED
    ensures DesiredFront(row) != NoFront
  {
    PositiveServing(row.targets);
  }

  lemma JudgeStage(w: World, previous: Status)
    requires Placed(w)
    ensures Placed(Judged(w, previous))
    ensures Judged(w, previous).cluster == w.cluster
    ensures DesiredFront(Judged(w, previous).row) == DesiredFront(w.row)
    ensures FrontPods(Judged(w, previous).row) == FrontPods(w.row)
    ensures Judged(w, previous).row.targets == w.row.targets
    ensures Judged(w, previous).row.servingVersion == w.row.servingVersion
  {
    hide TargetName, RouterName, FrontName, TargetLabels, RouterLabels, FrontSelector, ValidSplit, ValidId, Sorted,
         Judge;
    NeverJudgedStopped(w.row, previous);
    var r := Judged(w, previous);
    TidyFollowsNames(w.row, r.row, r.cluster);
    forall t | t in r.row.targets ensures PodsWanted(r.row, r.cluster, t) {
      assert PodsWanted(w.row, w.cluster, t);
    }
  }

  /** Removing a router that nothing selects leaves everything else, and is then justified. */
  lemma RemovalStage(w: World)
    requires Placed(w)
    ensures Placed(RouterRemoved(w)) && RouterJustified(RouterRemoved(w).row)
    ensures RouterRemoved(w).row.targets == w.row.targets
    ensures RouterRemoved(w).row.servingVersion == w.row.servingVersion
    ensures FrontPods(RouterRemoved(w).row) == FrontPods(w.row)
    ensures ReadyAt(RouterRemoved(w).cluster, FrontPods(w.row)) == ReadyAt(w.cluster, FrontPods(w.row))
  {
    hide TargetName, RouterName, FrontName, TargetLabels, RouterLabels, FrontSelector, ValidSplit, Sorted,
         Serving;
    var r := RouterRemoved(w);
    if r != w {
      forall v: nat ensures TName(w.row, v) != RName(w.row) && RName(w.row) != FName(w.row) {
        NamesApart(w.row, v, v);
      }
      RouterTidy(w, r);
      forall t | t in r.row.targets ensures PodsWanted(r.row, r.cluster, t) {
        assert PodsWanted(w.row, w.cluster, t);
      }
    }
  }

  // ------------------------------------------------------------------- reaping

  /** Only versions that are neither served nor resolved to are ever reaped. */
  lemma DoomedAreUnserved(w: World, n: string) returns (v: nat)
    requires Tidy(w.row, w.cluster) && n in Doomed(w)
    ensures n == TName(w.row, v)
    ensures !Serves(w.row.targets, v) && w.row.servingVersion != Some(v)
  {
    hide TargetName, RouterName, Decimal;
    var labels := w.cluster.deployments[n].labels;
    var wanted: Labels := map[DeploymentId := w.row.id, Component := "model-server"];
    assert DeploymentId in wanted && Component in wanted;
    assert Owned(w.row.id, labels);
    assert labels != RouterLabels(w.row.id);
    v :| n == TName(w.row, v) && labels == TargetLabels(w.row.id, v);
    assert labels[ModelVersion] == Decimal(v);
  }

  lemma ReapingSpares(w: World, n: string)
    requires Tidy(w.row, w.cluster) && ValidId(w.row.id)
    requires n == FName(w.row) || n == RName(w.row)
          || exists v: nat :: n == TName(w.row, v) && (Serves(w.row.targets, v) || w.row.servingVersion == Some(v))
    ensures n !in Doomed(w)
  {
    hide TargetName, RouterName, FrontName, Doomed;
    if n in Doomed(w) {
      var v := DoomedAreUnserved(w, n);
      NamesApart(w.row, v, v);
      if u: nat :| n == TName(w.row, u) && (Serves(w.row.targets, u) || w.row.servingVersion == Some(u)) {
        NamesApart(w.row, v, u);
      }
    }
  }

  lemma ReapStage(w: World)
    requires Placed(w)
    ensures Placed(Reaped(w)) && Reaped(w).row == w.row
    ensures ReadyAt(Reaped(w).cluster, FrontPods(w.row)) == ReadyAt(w.cluster, FrontPods(w.row))
  {
    hide TargetName, RouterName, FrontName, TargetLabels, RouterLabels, FrontSelector, ValidSplit, Sorted, Doomed,
         Serving;
    var r := Reaped(w);
    ReapingSpares(w, FName(w.row));
    ReapingSpares(w, RName(w.row));
    ReapingSpares(w, FrontPods(w.row));
    forall t | t in w.row.targets ensures PodsWanted(r.row, r.cluster, t) {
      assert PodsWanted(w.row, w.cluster, t);
      assert Serves(w.row.targets, t.version);
      ReapingSpares(w, TName(w.row, t.version));
    }
    forall n | n in r.cluster.deployments && Owned(r.row.id, r.cluster.deployments[n].labels)
      ensures OwnEntry(r.row, n, r.cluster.deployments[n].labels)
    {
      assert OwnEntry(w.row, n, w.cluster.deployments[n].labels);
    }
  }

  // ------------------------------------------------ applying the desired state

  lemma SettleStage(w: World, previous: Status)
    requires Launched(w)
    ensures Live(Settled(w, previous))
    ensures Settled(w, previous).row.targets == w.row.targets
    ensures w.row.k8sName.Some? ==>
      && Settled(w, previous).row.servingVersion == w.row.servingVersion
      && (ReadyAt(w.cluster, FrontPods(w.row)) > 0 ==> ReadyAt(Settled(w, previous).cluster, FrontPods(w.row)) > 0)
  {
    hide RouterApplied, FrontCreated, Judged, RouterRemoved, Reaped, Settings, Named, AllPodsWanted, FrontInStep,
         RouterInStep, RouterJustified, Tidy, DesiredFront, FrontPods, ReadyAt;
    RouterStage(w);
    var routed := RouterApplied(w);
    FrontStage(routed);
    var placed := FrontCreated(routed);
    JudgeStage(placed, previous);
    var judged := Judged(placed, previous);
    RemovalStage(judged);
    ReapStage(RouterRemoved(judged));
  }

  /** Applying a row, from scratch or over what is running, leaves the deployment live. */
  lemma ApplyMakesLive(w: World, apiUrl: bool)
    requires Pending(w)
    ensures Live(ApplyDesiredState(w, apiUrl))
    ensures SameTargets(ApplyDesiredState(w, apiUrl).row.targets, w.row.targets)
    ensures w.row.k8sName.Some? ==> ApplyDesiredState(w, apiUrl).row.servingVersion == w.row.servingVersion
  {
    hide LaunchAll, Settled, Settings, Named, AllPodsWanted, RouterInStep, Tidy, FrontPods, ReadyAt;
    LaunchStage(w);
    LaunchKeepsRow(w, w.row.targets);
    SettleStage(LaunchAll(w, w.row.targets), w.row.status);
  }

  /** Applying a row never takes the last ready pod from under the address. */
  lemma ApplyKeepsFrontReady(w: World, apiUrl: bool)
    requires Pending(w) && w.row.k8sName.Some? && ReadyAt(w.cluster, FrontPods(w.row)) > 0
    ensures ReadyAt(ApplyDesiredState(w, apiUrl).cluster, FrontPods(w.row)) > 0
  {
    hide LaunchAll, Settled, Settings, Named, AllPodsWanted, FrontInStep, RouterInStep, Tidy, FrontPods, ReadyAt,
         DesiredFront;
    LaunchStage(w);
    LaunchKeepsRow(w, w.row.targets);
    LaunchKeepsFrontReady(w);
    SettleStage(LaunchAll(w, w.row.targets), w.row.status);
  }

  // ---------------------------------------------------------------- a sync pass

  lemma ObservedPods(w: World, i: nat)
    requires Named(w.row) && AllPodsWanted(w.row, w.cluster) && i < |w.row.targets|
    ensures ObservedRow(w).targets[i].k8sName == Some(TName(w.row, w.row.targets[i].version))
    ensures PodsWanted(ObservedRow(w), w.cluster, ObservedRow(w).targets[i])
  {
    hide TargetName, StatusFromObservation;
    assert w.row.targets[i] in w.row.targets;
    assert PodsWanted(w.row, w.cluster, w.row.targets[i]);
  }

  lemma ObservationKeepsLive(w: World)
    requires Live(w)
    ensures SameTargets(ObservedRow(w).targets, w.row.targets)
    ensures Live(w.(row := ObservedRow(w)))
    ensures FrontPods(ObservedRow(w)) == FrontPods(w.row)
  {
    hide TargetName, RouterName, FrontName, TargetLabels, RouterLabels, FrontSelector, ValidSplit, ValidId, Sorted,
         StatusFromObservation, DesiredFront, PodsWanted, Replicas;
    var row := ObservedRow(w);
    assert SameTargets(row.targets, w.row.targets);
    assert SameTargets(w.row.targets, row.targets);
    SameTargetsFacts(w.row, row);
    TidyFollowsNames(w.row, row, w.cluster);
    forall t | t in row.targets ensures PodsWanted(row, w.cluster, t) && t.k8sName == Some(TName(row, t.version)) {
      var i :| 0 <= i < |row.targets| && row.targets[i] == t;
      ObservedPods(w, i);
    }
  }

  /** The Deployment a front stands for. */
  function PodsOf(row: Row, f: Front): string {
    if f.OnVersion? then TName(row, f.version) else RName(row)
  }

  /** What a pass calls ready has a pod ready in the cluster, in that same pass. */
  lemma ReadyIsEvidence(w: World, f: Front)
    requires Live(w) && FrontReady(ObservedRow(w), f)
    ensures ReadyAt(w.cluster, PodsOf(w.row, f)) > 0
  {
    hide TargetName, RouterName, FrontName, TargetLabels, RouterLabels, FrontSelector, ValidSplit, ValidId, Sorted, Tidy,
         RollUpStatus, Judge, DesiredFront;
    var row := ObservedRow(w);
    if f.OnVersion? {
      var t := Find(row.targets, f.version).value;
      var i :| 0 <= i < |row.targets| && row.targets[i] == t;
      assert w.row.targets[i] in w.row.targets;
      assert w.row.targets[i].k8sName == Some(TName(w.row, f.version));
    }
  }

  lemma {:induction false} ScaledDownElsewhere(w: World, ts: seq<Target>, n: string)
    requires forall t :: t in ts && OutOfRotation(w.row, t) ==> n != TName(w.row, t.version)
    ensures ScaledDown(w, ts).services == w.cluster.services
    ensures n in ScaledDown(w, ts).deployments <==> n in w.cluster.deployments
    ensures n in w.cluster.deployments ==> ScaledDown(w, ts).deployments[n] == w.cluster.deployments[n]
  {
    hide TargetName, TargetLabels, Replicas;
    if ts != [] {
      ScaledDownElsewhere(w, ts[..|ts| - 1], n);
      assert ts[|ts| - 1] in ts;
    }
  }

  lemma {:induction false} ScaledDownAt(w: World, ts: seq<Target>, t: Target)
    requires Sorted(ts) && t in ts && OutOfRotation(w.row, t)
    ensures TName(w.row, t.version) in ScaledDown(w, ts).deployments
    ensures ScaledDown(w, ts).deployments[TName(w.row, t.version)].desired == Replicas(w.row, t)
    ensures ScaledDown(w, ts).deployments[TName(w.row, t.version)].ready
         == Min(ReadyAt(w.cluster, TName(w.row, t.version)), Replicas(w.row, t))
    ensures ScaledDown(w, ts).deployments[TName(w.row, t.version)].labels == TargetLabels(w.row.id, t.version)
  {
    hide TargetName, TargetLabels, Replicas, OutOfRotation;
    var k := |ts| - 1;
    if t != ts[k] {
      assert t in ts[..k];
      var i :| 0 <= i < k && ts[i] == t;
      NamesApart(w.row, t.version, ts[k].version);
      ScaledDownAt(w, ts[..k], t);
    } else {
      forall u | u in ts[..k] ensures TName(w.row, t.version) != TName(w.row, u.version) {
        var i :| 0 <= i < k && ts[i] == u;
        NamesApart(w.row, t.version, u.version);
      }
      ScaledDownElsewhere(w, ts[..k], TName(w.row, t.version));
    }
  }

  /** The address has moved; the versions it left may still be running. */
  ghost predicate Shifted(w: World) {
    && Settings(w.row) && Named(w.row)
    && FrontInStep(w.row, w.cluster)
    && RouterInStep(w.row, w.cluster)
    && Tidy(w.row, w.cluster)
    && (forall t :: t in w.row.targets ==> OutOfRotation(w.row, t) || PodsWanted(w.row, w.cluster, t))
  }

  /** A move changes the replica rule only for a version that is then out of rotation. */
  lemma MovedPods(w: World, t: Target)
    requires Settings(w.row) && Named(w.row) && t in w.row.targets && PodsWanted(w.row, w.cluster, t)
    ensures OutOfRotation(Moved(w).row, t) || PodsWanted(Moved(w).row, Moved(w).cluster, t)
  {
    hide TargetName, FrontName, FrontSelector, Sorted, ValidId;
    if DesiredFront(w.row).OnVersion? {
      SoleServing(w.row);
    }
    var i :| 0 <= i < |w.row.targets| && w.row.targets[i] == t;
    assert Split(w.row.targets)[i].weight >= 0;
    hide DesiredFront;
  }

  lemma MoveStage(w: World)
    requires Live(w) && WillMove(w.row)
    requires ReadyAt(w.cluster, PodsOf(w.row, DesiredFront(w.row))) > 0
    ensures Shifted(Moved(w))
    ensures ReadyAt(Moved(w).cluster, FrontPods(Moved(w).row)) > 0
    ensures CurrentFront(Moved(w).row) == DesiredFront(w.row) == DesiredFront(Moved(w).row)
    ensures Moved(w).row.k8sName.Some?
    ensures Moved(w).row.targets == w.row.targets
  {
    hide TargetName, RouterName, FrontName, TargetLabels, RouterLabels, FrontSelector, ValidId, ValidSplit, Sorted,
         Replicas;
    var r := Moved(w);
    SameTargetsFacts(w.row, r.row);
    if DesiredFront(w.row).OnVersion? {
      SoleServing(w.row);
    }
    hide DesiredFront;
    TidyFollowsNames(w.row, r.row, r.cluster);
    forall t | t in r.row.targets ensures OutOfRotation(r.row, t) || PodsWanted(r.row, r.cluster, t) {
      MovedPods(w, t);
    }
  }

  /** Scaling down the versions the address has left spares everything that answers. */
  lemma ScaleDownStage(w: World)
    requires Shifted(w)
    ensures Placed(w.(cluster := ScaledDown(w, w.row.targets)))
    ensures ReadyAt(w.cluster, FrontPods(w.row)) > 0
        ==> ReadyAt(ScaledDown(w, w.row.targets), FrontPods(w.row)) > 0
  {
    hide TargetName, RouterName, FrontName, TargetLabels, RouterLabels, FrontSelector, ValidId, ValidSplit, ScaledDown,
         Tidy, Replicas;
    var ts, c := w.row.targets, ScaledDown(w, w.row.targets);
    forall t | t in ts ensures RName(w.row) != TName(w.row, t.version) {
      NamesApart(w.row, t.version, t.version);
    }
    ScaledDownElsewhere(w, ts, RName(w.row));
    forall t | t in ts && OutOfRotation(w.row, t) ensures FrontPods(w.row) != TName(w.row, t.version) {
      if w.row.servingVersion.Some? { NamesApart(w.row, w.row.servingVersion.value, t.version); }
    }
    ScaledDownElsewhere(w, ts, FrontPods(w.row));
    forall t | t in ts ensures PodsWanted(w.row, c, t) {
      if OutOfRotation(w.row, t) {
        ScaledDownAt(w, ts, t);
      } else {
        ScaledDownSpares(w, t);
      }
    }
    ScaledDownTidy(w);
  }

  lemma ScaledDownSpares(w: World, t: Target)
    requires Sorted(w.row.targets) && t in w.row.targets && !OutOfRotation(w.row, t)
    requires PodsWanted(w.row, w.cluster, t)
    ensures PodsWanted(w.row, ScaledDown(w, w.row.targets), t)
  {
    hide TargetName, ScaledDown, Replicas;
    forall u | u in w.row.targets && OutOfRotation(w.row, u) ensures TName(w.row, t.version) != TName(w.row, u.version) {
      NamesApart(w.row, t.version, u.version);
      if t.version == u.version { SortedUnique(w.row.targets, t, u); }
    }
    ScaledDownElsewhere(w, w.row.targets, TName(w.row, t.version));
  }

  lemma ScaledDownTidy(w: World)
    requires Sorted(w.row.targets) && Tidy(w.row, w.cluster)
    ensures Tidy(w.row, ScaledDown(w, w.row.targets))
  {
    hide TargetName, RouterName, TargetLabels, RouterLabels, ScaledDown, OutOfRotation;
    var ts, c := w.row.targets, ScaledDown(w, w.row.targets);
    forall v: nat | TName(w.row, v) in c.deployments
      ensures c.deployments[TName(w.row, v)].labels == TargetLabels(w.row.id, v)
    {
      if t :| t in ts && OutOfRotation(w.row, t) && TName(w.row, v) == TName(w.row, t.version) {
        NamesApart(w.row, v, t.version);
        ScaledDownAt(w, ts, t);
      } else {
        ScaledDownElsewhere(w, ts, TName(w.row, v));
      }
    }
    forall t | t in ts ensures RName(w.row) != TName(w.row, t.version) {
      NamesApart(w.row, t.version, 0);
    }
    ScaledDownElsewhere(w, ts, RName(w.row));
    forall n | n in c.deployments && Owned(w.row.id, c.deployments[n].labels)
      ensures OwnEntry(w.row, n, c.deployments[n].labels)
    {
      if t :| t in ts && OutOfRotation(w.row, t) && n == TName(w.row, t.version) {
        ScaledDownAt(w, ts, t);
      } else {
        ScaledDownElsewhere(w, ts, n);
      }
    }
  }
}
