/**
 A deployment as the database holds it (repos/deployments.js): one row, and one row per
 version it serves, read back in ascending order of version.

 Every write is a single UPDATE, INSERT or DELETE, modelled as a function on the row;
 `DeploymentStore` is the table entry those statements change in place.
 */
module DeploymentRows {
  import opened Prelude
  import opened Routing

  datatype Status = PENDING | PROGRESSING | READY | DEGRADED | FAILED | STOPPED

  /** One version a deployment serves. `k8sName` is set once its objects exist. */
  datatype Target = Target(version: nat, weight: int, replicas: nat, status: Status, readyReplicas: nat,
                           lastError: Option<string>, k8sName: Option<string>)

  /** One version as an error message names it. */
  datatype Mention = Mention(version: nat, status: Status, lastError: Option<string>)

  /** What `last_error` says about a deployment; the sentence itself is not modelled. */
  datatype Explanation =
    | NoError
    | AllWeightsZero
    | AllFailed(versions: seq<Mention>)
    | NotAnswering(versions: seq<Mention>)
    | PartlyBroken(versions: seq<Mention>)

  datatype Row = Row(id: string, name: string, replicas: nat, targets: seq<Target>,
                     k8sName: Option<string>, servingVersion: Option<nat>,
                     routerName: Option<string>, routerStatus: Option<Status>, routerReady: nat,
                     status: Status, readyReplicas: int, lastError: Explanation)

  /** The split a row describes. */
  function Split(ts: seq<Target>): (s: seq<Share>)
    ensures |s| == |ts|
    ensures forall i :: 0 <= i < |s| ==> s[i] == Share(ts[i].version, ts[i].weight)
  {
    seq(|ts|, i requires 0 <= i < |ts| => Share(ts[i].version, ts[i].weight))
  }

  /** Ascending by version, which is the order rows are read in. */
  ghost predicate Sorted(ts: seq<Target>) {
    forall i, j :: 0 <= i < j < |ts| ==> ts[i].version < ts[j].version
  }

  lemma SortedIsAscending(ts: seq<Target>)
    ensures Sorted(ts) <==> Ascending(Split(ts))
  {
    if Ascending(Split(ts)) {
      assert forall i :: 0 <= i < |ts| ==> Split(ts)[i].version == ts[i].version;
    }
  }

  predicate Serves(ts: seq<Target>, version: nat) {
    exists t :: t in ts && t.version == version
  }

  // ------------------------------------------------------------ per-target writes

  function WithWeight(ts: seq<Target>, version: nat, weight: int): (r: seq<Target>)
    ensures |r| == |ts|
    ensures forall i :: 0 <= i < |r| ==>
      r[i] == if ts[i].version == version then ts[i].(weight := weight) else ts[i]
  {
    seq(|ts|, i requires 0 <= i < |ts| => if ts[i].version == version then ts[i].(weight := weight) else ts[i])
  }

  /** One UPDATE per entry, in order. */
  function WithWeights(ts: seq<Target>, shares: seq<Share>): (r: seq<Target>)
    ensures |r| == |ts|
  {
    if shares == [] then ts
    else
      var last := shares[|shares| - 1];
      WithWeight(WithWeights(ts, shares[..|shares| - 1]), last.version, last.weight)
  }

  /** INSERT ... ON CONFLICT DO UPDATE, keeping the ascending order rows are read in. */
  function Upserted(ts: seq<Target>, version: nat, weight: int, replicas: nat): seq<Target> {
    if ts == [] || version < ts[0].version then
      [Target(version, weight, replicas, PENDING, 0, None, None)] + ts
    else if ts[0].version == version then [ts[0].(weight := weight, replicas := replicas)] + ts[1..]
    else [ts[0]] + Upserted(ts[1..], version, weight, replicas)
  }

  function Removed(ts: seq<Target>, version: nat): (r: seq<Target>)
    ensures forall t :: t in r <==> t in ts && t.version != version
  {
    if ts == [] then []
    else if ts[0].version == version then Removed(ts[1..], version)
    else [ts[0]] + Removed(ts[1..], version)
  }

  function WithLaunch(ts: seq<Target>, version: nat, k8sName: string): (r: seq<Target>)
    ensures |r| == |ts|
    ensures forall i :: 0 <= i < |r| ==>
      r[i] == if ts[i].version == version then ts[i].(k8sName := Some(k8sName)) else ts[i]
  {
    seq(|ts|, i requires 0 <= i < |ts| =>
      if ts[i].version == version then ts[i].(k8sName := Some(k8sName)) else ts[i])
  }

  /** What one observation of a version's pods, or of a deployment, concludes. */
  datatype Verdict<E> = Verdict(status: Status, readyReplicas: int, lastError: E)

  function Noted(t: Target, v: Verdict<Option<string>>): Target
    requires v.readyReplicas >= 0
  {
    t.(status := v.status, readyReplicas := v.readyReplicas, lastError := v.lastError)
  }

  function WithObservation(ts: seq<Target>, version: nat, v: Verdict<Option<string>>): (r: seq<Target>)
    requires v.readyReplicas >= 0
    ensures |r| == |ts|
    ensures forall i :: 0 <= i < |r| ==>
      r[i] == if ts[i].version == version then Noted(ts[i], v) else ts[i]
  {
    seq(|ts|, i requires 0 <= i < |ts| => if ts[i].version == version then Noted(ts[i], v) else ts[i])
  }

  // ----------------------------------------------------------- whole-row writes

  /**
   Recording that there is no router also clears what was last observed of it: a ready
   count left behind by a deleted router would read as a healthy one.
   */
  function WithRouter(row: Row, k8sName: Option<string>): Row {
    row.(routerName := k8sName,
         routerStatus := if k8sName.None? then None else row.routerStatus,
         routerReady := if k8sName.None? then 0 else row.routerReady)
  }

  function WithVerdict(row: Row, v: Verdict<Explanation>): Row {
    row.(status := v.status, readyReplicas := v.readyReplicas, lastError := v.lastError)
  }

  class DeploymentStore {
    var row: Row

    constructor (row: Row)
      ensures this.row == row
    {
      this.row := row;
    }

    method UpdateSpec(replicas: nat)
      modifies this
      ensures row == old(row).(replicas := replicas)
    {
      row := row.(replicas := replicas);
    }

    method UpsertTarget(version: nat, weight: int, replicas: nat)
      modifies this
      ensures row == old(row).(targets := Upserted(old(row).targets, version, weight, replicas))
    {
      row := row.(targets := Upserted(row.targets, version, weight, replicas));
    }

    method SetWeights(shares: seq<Share>)
      modifies this
      ensures row == old(row).(targets := WithWeights(old(row).targets, shares))
    {
      assert WithWeights(row.targets, []) == row.targets;
      for i := 0 to |shares|
        invariant row == old(row).(targets := WithWeights(old(row).targets, shares[..i]))
      {
        assert shares[..i + 1][..i] == shares[..i];
        row := row.(targets := WithWeight(row.targets, shares[i].version, shares[i].weight));
      }
      assert shares[..|shares|] == shares;
    }

    method RemoveTarget(version: nat)
      modifies this
      ensures row == old(row).(targets := Removed(old(row).targets, version))
    {
      row := row.(targets := Removed(row.targets, version));
    }

    method RecordTargetLaunch(version: nat, k8sName: string)
      modifies this
      ensures row == old(row).(targets := WithLaunch(old(row).targets, version, k8sName))
    {
      row := row.(targets := WithLaunch(row.targets, version, k8sName));
    }

    method RecordTargetObservation(version: nat, v: Verdict<Option<string>>)
      requires v.readyReplicas >= 0
      modifies this
      ensures row == old(row).(targets := WithObservation(old(row).targets, version, v))
    {
      row := row.(targets := WithObservation(row.targets, version, v));
    }

    method RecordLaunch(k8sName: string)
      modifies this
      ensures row == old(row).(k8sName := Some(k8sName))
    {
      row := row.(k8sName := Some(k8sName));
    }

    method RecordServingVersion(version: Option<nat>)
      modifies this
      ensures row == old(row).(servingVersion := version)
    {
      row := row.(servingVersion := version);
    }

    method RecordRouter(k8sName: Option<string>)
      modifies this
      ensures row == WithRouter(old(row), k8sName)
    {
      row := row.(routerName := k8sName);
      if k8sName.None? {
        row := row.(routerStatus := None, routerReady := 0);
      }
    }

    method RecordRouterObservation(status: Status, ready: nat)
      modifies this
      ensures row == old(row).(routerStatus := Some(status), routerReady := ready)
    {
      row := row.(routerStatus := Some(status), routerReady := ready);
    }

    method RecordObservation(v: Verdict<Explanation>)
      modifies this
      ensures row == WithVerdict(old(row), v)
    {
      row := row.(status := v.status, readyReplicas := v.readyReplicas, lastError := v.lastError);
    }
  }

  // -------------------------------------------------- what a write of weights does

  lemma {:induction false} WithWeightsAt(ts: seq<Target>, shares: seq<Share>, i: nat)
    requires Distinct(shares) && i < |ts|
    ensures WithWeights(ts, shares)[i] ==
      ts[i].(weight := if exists s :: s in shares && s.version == ts[i].version
                       then WeightIn(shares, ts[i].version) else ts[i].weight)
  {
    if shares != [] {
      var n := |shares| - 1;
      var last := shares[n];
      WithWeightsAt(ts, shares[..n], i);
      assert shares == shares[..n] + [last];
      if last.version == ts[i].version {
        WeightInFound(shares, last);
      } else if exists s :: s in shares[..n] && s.version == ts[i].version {
        var s :| s in shares[..n] && s.version == ts[i].version;
        assert Distinct(shares[..n]);
        WeightInFound(shares[..n], s);
        WeightInFound(shares, s);
      } else {
        assert forall s :: s in shares ==> s == last || s in shares[..n];
      }
    }
  }

  /** Writing a complete ascending split over the same versions makes it the row's split. */
  lemma WritingASplit(ts: seq<Target>, next: seq<Share>)
    requires Sorted(ts) && Ascending(next)
    requires forall v :: Serves(ts, v) <==> exists s :: s in next && s.version == v
    ensures Split(WithWeights(ts, next)) == next
    ensures forall i :: 0 <= i < |ts| ==>
      WithWeights(ts, next)[i] == ts[i].(weight := WeightIn(next, ts[i].version))
  {
    var r := WithWeights(ts, next);
    forall i | 0 <= i < |ts| ensures r[i] == ts[i].(weight := WeightIn(next, ts[i].version)) {
      WithWeightsAt(ts, next, i);
      assert Serves(ts, ts[i].version);
    }
    forall s ensures s in Split(r) <==> s in next {
      if s in next {
        assert Serves(ts, s.version);
        var t :| t in ts && t.version == s.version;
        var i :| 0 <= i < |ts| && ts[i] == t;
        WeightInFound(next, s);
        assert Split(r)[i] == s;
      }
      if s in Split(r) {
        var i :| 0 <= i < |r| && Split(r)[i] == s;
        assert ts[i] in ts && Serves(ts, ts[i].version);
        var u :| u in next && u.version == s.version;
        WeightInFound(next, u);
      }
    }
    assert Sorted(r);
    SortedIsAscending(r);
    AscendingUnique(Split(r), next);
  }

  lemma HeadIsFirst(ts: seq<Target>, t: Target)
    requires Sorted(ts) && ts != [] && t in ts
    ensures ts[0].version <= t.version && (t.version == ts[0].version ==> t == ts[0])
  {
    var i :| 0 <= i < |ts| && ts[i] == t;
  }

  lemma {:induction false} UpsertedOthers(ts: seq<Target>, version: nat, weight: int, replicas: nat, t: Target)
    requires Sorted(ts) && t.version != version
    ensures t in Upserted(ts, version, weight, replicas) <==> t in ts
  {
    hide Sorted;
    if ts != [] {
      assert ts == [ts[0]] + ts[1..];
      if version > ts[0].version {
        TailSorted(ts);
        UpsertedOthers(ts[1..], version, weight, replicas, t);
      }
    }
  }

  lemma TailSorted(ts: seq<Target>)
    requires Sorted(ts) && ts != []
    ensures Sorted(ts[1..])
  {
  }

  lemma {:induction false} UpsertedItself(ts: seq<Target>, version: nat, weight: int, replicas: nat, t: Target)
    requires Sorted(ts) && t in Upserted(ts, version, weight, replicas) && t.version == version
    ensures t.weight == weight && t.replicas == replicas
  {
    hide Sorted;
    if ts != [] {
      TailSorted(ts);
      assert ts == [ts[0]] + ts[1..];
      if version > ts[0].version {
        UpsertedItself(ts[1..], version, weight, replicas, t);
      } else if version < ts[0].version {
        if t in ts { HeadIsFirst(ts, t); }
      } else {
        if t in ts[1..] { HeadNotInTail(ts, t); }
      }
    }
  }

  lemma HeadNotInTail(ts: seq<Target>, t: Target)
    requires Sorted(ts) && ts != [] && t in ts[1..]
    ensures ts[0].version < t.version
  {
    var i :| 1 <= i < |ts| && ts[i] == t;
  }

  lemma {:induction false} UpsertedServesIt(ts: seq<Target>, version: nat, weight: int, replicas: nat)
    ensures Serves(Upserted(ts, version, weight, replicas), version)
  {
    var r := Upserted(ts, version, weight, replicas);
    if ts != [] && version > ts[0].version {
      UpsertedServesIt(ts[1..], version, weight, replicas);
      var t :| t in Upserted(ts[1..], version, weight, replicas) && t.version == version;
      assert t in r;
    } else {
      assert r[0] in r;
    }
  }

  lemma UpsertedMembers(ts: seq<Target>, version: nat, weight: int, replicas: nat)
    requires Sorted(ts)
    ensures forall t :: t in Upserted(ts, version, weight, replicas) && t.version != version
                        <==> t in ts && t.version != version
    ensures Serves(Upserted(ts, version, weight, replicas), version)
    ensures forall t :: t in Upserted(ts, version, weight, replicas) && t.version == version
                        ==> t.weight == weight && t.replicas == replicas
  {
    hide Upserted, Sorted;
    var r := Upserted(ts, version, weight, replicas);
    UpsertedServesIt(ts, version, weight, replicas);
    forall t: Target | t.version != version ensures t in r <==> t in ts {
      UpsertedOthers(ts, version, weight, replicas, t);
    }
    forall t | t in r && t.version == version ensures t.weight == weight && t.replicas == replicas {
      UpsertedItself(ts, version, weight, replicas, t);
    }
  }

  /** A version served before keeps what was seen of it; a new one is pending, with nothing seen of it. */
  lemma {:induction false} UpsertedTarget(ts: seq<Target>, version: nat, weight: int, replicas: nat)
    requires Sorted(ts)
    ensures forall t :: t in ts && t.version == version ==>
      t.(weight := weight, replicas := replicas) in Upserted(ts, version, weight, replicas)
    ensures !Serves(ts, version) ==>
      Target(version, weight, replicas, PENDING, 0, None, None) in Upserted(ts, version, weight, replicas)
  {
    if ts != [] && version > ts[0].version {
      UpsertedTarget(ts[1..], version, weight, replicas);
    } else if ts != [] {
      forall t | t in ts[1..] ensures ts[0].version < t.version { HeadNotInTail(ts, t); }
    }
  }

  /** With its router gone nothing seen of it is kept; with one recorded it is, and nothing else changes either way. */
  lemma RouterRecorded(row: Row, name: string)
    ensures WithRouter(row, Some(name)) == row.(routerName := Some(name))
    ensures WithRouter(row, None) == row.(routerName := None, routerStatus := None, routerReady := 0)
  {
  }

  lemma {:induction false} UpsertedSorted(ts: seq<Target>, version: nat, weight: int, replicas: nat)
    requires Sorted(ts)
    ensures Sorted(Upserted(ts, version, weight, replicas))
  {
    if ts != [] && version > ts[0].version {
      var rest := Upserted(ts[1..], version, weight, replicas);
      UpsertedSorted(ts[1..], version, weight, replicas);
      forall i | 0 <= i < |rest| ensures rest[i].version > ts[0].version {
        if rest[i].version != version {
          UpsertedOthers(ts[1..], version, weight, replicas, rest[i]);
          HeadNotInTail(ts, rest[i]);
        }
      }
    }
  }
}
