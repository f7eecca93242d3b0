/**
 What a traffic weight means (domain/routing.js).

 How a split is checked and how it changes. Applying it to a request is in `Choice`.
 */
module Routing {
  import opened Prelude
  import opened Apportionment

  const TOTAL_WEIGHT: int := 100

  datatype Share = Share(version: nat, weight: int)

  function Weights(shares: seq<Share>): (ws: seq<int>)
    ensures |ws| == |shares|
    ensures forall i :: 0 <= i < |ws| ==> ws[i] == shares[i].weight
  {
    seq(|shares|, i requires 0 <= i < |shares| => shares[i].weight)
  }

  // ------------------------------------------------------------- a valid split

  datatype WeightError = NoTargets | InvalidWeight | DuplicateVersion | MustSumTo100 | NoTargetTakesTraffic

  predicate Distinct(shares: seq<Share>) {
    forall i, j :: 0 <= i < j < |shares| ==> shares[i].version != shares[j].version
  }

  predicate InRange(shares: seq<Share>) {
    forall i :: 0 <= i < |shares| ==> 0 <= shares[i].weight <= TOTAL_WEIGHT
  }

  ghost predicate ValidSplit(shares: seq<Share>) {
    && shares != []
    && InRange(shares)
    && Distinct(shares)
    && Sum(Weights(shares)) == 100
  }

  /** Checks a proposed set of weights, reporting the first rule it breaks. */
  method ValidateWeights(shares: seq<Share>) returns (r: Result<(), WeightError>)
    ensures r.Ok? <==> ValidSplit(shares)
    ensures r == Err(NoTargets) <==> shares == []
    ensures r == Err(InvalidWeight) <==> !InRange(shares)
    ensures r == Err(DuplicateVersion) <==> shares != [] && InRange(shares) && !Distinct(shares)
    ensures r == Err(MustSumTo100)
      <==> shares != [] && InRange(shares) && Distinct(shares) && Sum(Weights(shares)) != TOTAL_WEIGHT
    ensures r != Err(NoTargetTakesTraffic)
  {
    if |shares| == 0 {
      return Err(NoTargets);
    }
    for i := 0 to |shares|
      invariant forall k :: 0 <= k < i ==> 0 <= shares[k].weight <= TOTAL_WEIGHT
    {
      if shares[i].weight < 0 || shares[i].weight > TOTAL_WEIGHT {
        return Err(InvalidWeight);
      }
    }
    var seen: set<nat> := {};
    for i := 0 to |shares|
      invariant seen == set k | 0 <= k < i :: shares[k].version
      invariant forall j, k :: 0 <= j < k < i ==> shares[j].version != shares[k].version
    {
      if shares[i].version in seen {
        return Err(DuplicateVersion);
      }
      seen := seen + {shares[i].version};
    }
    var total := 0;
    for i := 0 to |shares|
      invariant total == Sum(Weights(shares)[..i])
    {
      assert Weights(shares)[..i + 1][..i] == Weights(shares)[..i];
      total := total + shares[i].weight;
    }
    assert Weights(shares)[..|shares|] == Weights(shares);
    if total != TOTAL_WEIGHT {
      return Err(MustSumTo100);
    }
    if forall i :: 0 <= i < |shares| ==> shares[i].weight <= 0 {
      AllZeroSum(Weights(shares));
      assert false;
    }
    return Ok(());
  }

  // ------------------------------------------------------- changing one share

  /** The versions a rollout of `version` takes its share from. */
  function Others(current: seq<Share>, version: nat): (r: seq<Share>)
    ensures forall s :: s in r <==> s in current && s.version != version
  {
    if current == [] then []
    else if current[0].version != version then [current[0]] + Others(current[1..], version)
    else Others(current[1..], version)
  }

  function InsertByVersion(s: Share, sorted: seq<Share>): seq<Share> {
    if sorted == [] then [s]
    else if s.version < sorted[0].version then [s] + sorted
    else [sorted[0]] + InsertByVersion(s, sorted[1..])
  }

  function SortByVersion(shares: seq<Share>): seq<Share> {
    if shares == [] then []
    else InsertByVersion(shares[|shares| - 1], SortByVersion(shares[..|shares| - 1]))
  }

  function Reweighted(shares: seq<Share>, ws: seq<int>): (r: seq<Share>)
    requires |ws| == |shares|
    ensures |r| == |shares|
    ensures forall i :: 0 <= i < |r| ==> r[i] == Share(shares[i].version, ws[i])
  {
    seq(|shares|, i requires 0 <= i < |shares| => Share(shares[i].version, ws[i]))
  }

  lemma WeightsWeighable(shares: seq<Share>)
    requires shares != [] && InRange(shares)
    ensures Weighable(Weights(shares)) && Sum(Basis(Weights(shares))) > 0
  {
    BasisPositive(Weights(shares));
  }

  lemma OthersInRange(current: seq<Share>, version: nat)
    requires InRange(current)
    ensures InRange(Others(current, version))
  {
    var others := Others(current, version);
    forall i | 0 <= i < |others| ensures 0 <= others[i].weight <= TOTAL_WEIGHT {
      assert others[i] in current;
    }
  }

  /** The split after `version` is given `weight` percent and the rest is shared out again. */
  function ApplyRollout(current: seq<Share>, version: nat, weight: int): seq<Share>
    requires InRange(current)
  {
    var others := Others(current, version);
    if others == [] then [Share(version, TOTAL_WEIGHT)]
    else
      OthersInRange(current, version);
      WeightsWeighable(others);
      SortByVersion(Reweighted(others, Apportion(Weights(others), TOTAL_WEIGHT - weight))
                    + [Share(version, weight)])
  }

  /** The rollout as it is computed: whole parts first, then the remainder one unit at a time. */
  method ComputeRollout(current: seq<Share>, version: nat, weight: int) returns (next: seq<Share>)
    requires InRange(current)
    ensures next == ApplyRollout(current, version, weight)
  {
    hide HandOut, Order, Sum, SortByVersion, Basis, Wholes, Slots, Others, Weighable;
    var others := Others(current, version);
    var remaining := TOTAL_WEIGHT - weight;
    if |others| == 0 {
      return [Share(version, TOTAL_WEIGHT)];
    }
    OthersInRange(current, version);
    WeightsWeighable(others);
    var ws := Weights(others);
    var rounded := Wholes(ws, remaining);
    var slots := Slots(ws, remaining);
    var leftover := remaining - Sum(rounded);
    OrderIndices(slots);
    rounded := HandOutRemainder(rounded, Order(slots), leftover);
    assert rounded == Apportion(ws, remaining);
    next := SortByVersion(Reweighted(others, rounded) + [Share(version, weight)]);
  }

  method HandOutRemainder(wholes: seq<int>, order: seq<Slot>, total: int) returns (rounded: seq<int>)
    requires forall i :: 0 <= i < |order| ==> order[i].index < |wholes|
    ensures rounded == HandOut(wholes, order, total)
  {
    rounded := wholes;
    var leftover := total;
    for k := 0 to |order|
      invariant |rounded| == |wholes|
      invariant HandOut(rounded, order[k..], leftover) == HandOut(wholes, order, total)
    {
      if leftover <= 0 { break; }
      assert order[k..][0] == order[k] && order[k..][1..] == order[k + 1..];
      rounded := rounded[order[k].index := rounded[order[k].index] + 1];
      leftover := leftover - 1;
    }
  }

  // Sorting only reorders.

  lemma {:induction false} InsertByVersionProperties(s: Share, sorted: seq<Share>)
    ensures multiset(InsertByVersion(s, sorted)) == multiset(sorted) + multiset{s}
    ensures |InsertByVersion(s, sorted)| == |sorted| + 1
    ensures Sum(Weights(InsertByVersion(s, sorted))) == Sum(Weights(sorted)) + s.weight
  {
    if sorted == [] {
      assert Weights([s])[..0] == [];
    } else {
      assert sorted == [sorted[0]] + sorted[1..];
      WeightsCons(sorted[0], sorted[1..]);
      if s.version < sorted[0].version {
        WeightsCons(s, sorted);
      } else {
        InsertByVersionProperties(s, sorted[1..]);
        WeightsCons(sorted[0], InsertByVersion(s, sorted[1..]));
      }
    }
  }

  lemma WeightsCons(s: Share, shares: seq<Share>)
    ensures Sum(Weights([s] + shares)) == s.weight + Sum(Weights(shares))
  {
    assert Weights([s] + shares) == [s.weight] + Weights(shares);
    assert [s.weight][..0] == [];
    SumAppend([s.weight], Weights(shares));
  }

  lemma WeightsLast(shares: seq<Share>, n: nat)
    requires n + 1 == |shares|
    ensures Sum(Weights(shares)) == Sum(Weights(shares[..n])) + shares[n].weight
  {
    assert Weights(shares)[..n] == Weights(shares[..n]);
  }

  lemma SameMembers(a: seq<Share>, b: seq<Share>)
    requires multiset(a) == multiset(b)
    ensures |a| == |b| && forall s :: s in a <==> s in b
  {
    assert |multiset(a)| == |a| && |multiset(b)| == |b|;
    forall s ensures s in a <==> s in b {
      assert s in multiset(a) <==> s in multiset(b);
    }
  }

  lemma {:induction false} SortByVersionKeeps(shares: seq<Share>)
    ensures multiset(SortByVersion(shares)) == multiset(shares)
    ensures Sum(Weights(SortByVersion(shares))) == Sum(Weights(shares))
  {
    hide Sum, Weights, InsertByVersion;
    if shares != [] {
      var n := |shares| - 1;
      SortByVersionKeeps(shares[..n]);
      InsertByVersionProperties(shares[n], SortByVersion(shares[..n]));
      assert shares == shares[..n] + [shares[n]];
      WeightsLast(shares, n);
    }
  }

  lemma SortByVersionProperties(shares: seq<Share>)
    ensures multiset(SortByVersion(shares)) == multiset(shares)
    ensures |SortByVersion(shares)| == |shares|
    ensures Sum(Weights(SortByVersion(shares))) == Sum(Weights(shares))
    ensures forall s :: s in SortByVersion(shares) <==> s in shares
  {
    hide *;
    SortByVersionKeeps(shares);
    SameMembers(SortByVersion(shares), shares);
  }

  ghost predicate Ascending(shares: seq<Share>) {
    forall i, j :: 0 <= i < j < |shares| ==> shares[i].version < shares[j].version
  }

  lemma {:induction false} InsertByVersionAscends(s: Share, sorted: seq<Share>)
    requires Ascending(sorted)
    requires forall t :: t in sorted ==> t.version != s.version
    ensures Ascending(InsertByVersion(s, sorted))
    ensures forall t :: t in InsertByVersion(s, sorted) <==> t == s || t in sorted
  {
    if sorted != [] && s.version > sorted[0].version {
      InsertByVersionAscends(s, sorted[1..]);
      assert forall t :: t in sorted[1..] ==> sorted[0].version < t.version;
    }
  }

  lemma {:induction false} SortByVersionAscends(shares: seq<Share>)
    requires Distinct(shares)
    ensures Ascending(SortByVersion(shares))
  {
    if shares != [] {
      var n := |shares| - 1;
      SortByVersionAscends(shares[..n]);
      SortByVersionProperties(shares[..n]);
      InsertByVersionAscends(shares[n], SortByVersion(shares[..n]));
    }
  }

  lemma {:induction false} AscendingUnique(a: seq<Share>, b: seq<Share>)
    requires Ascending(a) && Ascending(b)
    requires forall s :: s in a <==> s in b
    ensures a == b
    decreases |a|
  {
    assert b != [] ==> b[0] in b;
    if a != [] {
      assert a[0] in a && a[0] in b && b[0] in a;
      assert a[0] == b[0];
      forall s ensures s in a[1..] <==> s in b[1..] {
        assert s in a <==> s == a[0] || s in a[1..];
        assert s in b <==> s == b[0] || s in b[1..];
      }
      AscendingUnique(a[1..], b[1..]);
    }
  }

  lemma {:induction false} OthersDistinct(current: seq<Share>, version: nat)
    requires Distinct(current)
    ensures Distinct(Others(current, version))
  {
    if current != [] {
      OthersDistinct(current[1..], version);
      var rest := Others(current[1..], version);
      forall k | 0 <= k < |rest| ensures rest[k].version != current[0].version {
        assert rest[k] in current[1..];
      }
    }
  }

  // --------------------------------------------- what a rollout guarantees

  /** The weight a split gives to a version; 0 for one it does not mention. */
  function WeightIn(shares: seq<Share>, version: nat): int {
    if shares == [] then 0
    else if shares[0].version == version then shares[0].weight
    else WeightIn(shares[1..], version)
  }

  lemma {:induction false} WeightInFound(shares: seq<Share>, s: Share)
    requires Distinct(shares) && s in shares
    ensures WeightIn(shares, s.version) == s.weight
  {
    if shares[0] != s {
      WeightInFound(shares[1..], s);
      var k :| 0 <= k < |shares| && shares[k] == s;
      assert shares[0].version != shares[k].version;
    }
  }

  /** The shares of a rollout, before they are sorted. */
  function Unsorted(others: seq<Share>, version: nat, weight: int): seq<Share>
    requires others != [] && InRange(others)
  {
    WeightsWeighable(others);
    Reweighted(others, Apportion(Weights(others), TOTAL_WEIGHT - weight)) + [Share(version, weight)]
  }

  lemma UnsortedTotal(others: seq<Share>, version: nat, weight: int)
    requires others != [] && InRange(others)
    ensures Sum(Weights(Unsorted(others, version, weight))) == TOTAL_WEIGHT
  {
    WeightsWeighable(others);
    var ws := Apportion(Weights(others), TOTAL_WEIGHT - weight);
    ApportionTotal(Weights(others), TOTAL_WEIGHT - weight);
    assert Weights(Unsorted(others, version, weight)) == ws + [weight];
    assert (ws + [weight])[..|ws|] == ws;
  }

  lemma UnsortedInRange(others: seq<Share>, version: nat, weight: int)
    requires others != [] && InRange(others) && 0 <= weight <= TOTAL_WEIGHT
    ensures InRange(Unsorted(others, version, weight))
  {
    WeightsWeighable(others);
    var remaining := TOTAL_WEIGHT - weight;
    var r := Apportion(Weights(others), remaining);
    ApportionTotal(Weights(others), remaining);
    forall i | 0 <= i < |r| ensures r[i] >= 0 {
      ApportionNonNegative(Weights(others), remaining, i);
    }
    SumNonNegative(r);
  }

  /** Every version but the one rolled out, with its weight before and after. */
  lemma RolloutMembers(current: seq<Share>, version: nat, weight: int)
    requires InRange(current) && Distinct(current) && Others(current, version) != []
    ensures var others := Others(current, version);
      && InRange(others) && Distinct(Unsorted(others, version, weight))
      && Distinct(ApplyRollout(current, version, weight))
      && Ascending(ApplyRollout(current, version, weight))
      && (forall s :: s in ApplyRollout(current, version, weight) <==> s in Unsorted(others, version, weight))
  {
    var others := Others(current, version);
    OthersInRange(current, version);
    OthersDistinct(current, version);
    var unsorted := Unsorted(others, version, weight);
    forall i | 0 <= i < |others| ensures others[i].version != version {
      assert others[i] in others;
    }
    SortByVersionProperties(unsorted);
    SortByVersionAscends(unsorted);
  }

  lemma RolloutOfSeveral(current: seq<Share>, version: nat, weight: int)
    requires InRange(current) && Distinct(current) && 0 <= weight <= TOTAL_WEIGHT && Others(current, version) != []
    ensures ValidSplit(ApplyRollout(current, version, weight))
  {
    hide Apportion, SortByVersion, Others, Sum, Unsorted, Distinct, Ascending;
    var others, next := Others(current, version), ApplyRollout(current, version, weight);
    RolloutMembers(current, version, weight);
    UnsortedTotal(others, version, weight);
    UnsortedInRange(others, version, weight);
    RolloutIsSorted(current, version, weight);
    SortByVersionProperties(Unsorted(others, version, weight));
    forall i | 0 <= i < |next| ensures 0 <= next[i].weight <= TOTAL_WEIGHT {
      assert next[i] in next;
    }
  }

  /** A rollout turns any distinct set of weights into a complete split, whatever it was before. */
  lemma RolloutIsValid(current: seq<Share>, version: nat, weight: int)
    requires InRange(current) && Distinct(current) && 0 <= weight <= TOTAL_WEIGHT
    ensures ValidSplit(ApplyRollout(current, version, weight))
    ensures Ascending(ApplyRollout(current, version, weight))
  {
    if Others(current, version) == [] {
      assert [TOTAL_WEIGHT][..0] == [];
      assert Weights([Share(version, TOTAL_WEIGHT)]) == [TOTAL_WEIGHT];
    } else {
      RolloutOfSeveral(current, version, weight);
      RolloutMembers(current, version, weight);
    }
  }

  lemma RolloutIsSorted(current: seq<Share>, version: nat, weight: int)
    requires InRange(current) && Others(current, version) != []
    ensures InRange(Others(current, version))
    ensures ApplyRollout(current, version, weight) == SortByVersion(Unsorted(Others(current, version), version, weight))
    ensures Unsorted(Others(current, version), version, weight) != []
  {
    hide Apportion, SortByVersion, Others;
    OthersInRange(current, version);
  }

  /** A rollout keeps exactly the versions there were, and adds the one it names. */
  lemma RolloutVersions(current: seq<Share>, version: nat, weight: int, v: nat)
    requires InRange(current) && Distinct(current)
    ensures (exists s :: s in ApplyRollout(current, version, weight) && s.version == v)
      <==> v == version || exists s :: s in current && s.version == v
  {
    hide Others, Apportion;
    var others := Others(current, version);
    if others == [] {
      assert forall s :: s in current ==> s.version == version;
      assert Share(version, TOTAL_WEIGHT) in ApplyRollout(current, version, weight);
    } else {
      hide ApplyRollout;
      RolloutMembers(current, version, weight);
      UnsortedVersions(others, version, weight, v);
    }
  }

  lemma UnsortedVersions(others: seq<Share>, version: nat, weight: int, v: nat)
    requires others != [] && InRange(others)
    ensures (exists s :: s in Unsorted(others, version, weight) && s.version == v)
      <==> v == version || exists s :: s in others && s.version == v
  {
    hide Apportion;
    WeightsWeighable(others);
    var unsorted := Unsorted(others, version, weight);
    assert unsorted[|others|] == Share(version, weight);
    if s :| s in others && s.version == v {
      var i :| 0 <= i < |others| && others[i] == s;
      assert unsorted[i].version == v;
    }
    if s :| s in unsorted && s.version == v && v != version {
      var i :| 0 <= i < |unsorted| && unsorted[i] == s;
      assert others[i] in others;
    }
  }

  /** Where a share that was not named ends up. */
  lemma RolloutShare(current: seq<Share>, version: nat, weight: int, i: nat)
    requires InRange(current) && Distinct(current) && i < |Others(current, version)|
    ensures WeightsAreWeighable(Others(current, version))
    ensures WeightIn(ApplyRollout(current, version, weight), Others(current, version)[i].version)
         == Apportion(Weights(Others(current, version)), TOTAL_WEIGHT - weight)[i]
  {
    var others := Others(current, version);
    OthersInRange(current, version);
    WeightsWeighable(others);
    RolloutMembers(current, version, weight);
    var unsorted := Unsorted(others, version, weight);
    assert unsorted[i] in unsorted;
    WeightInFound(ApplyRollout(current, version, weight), unsorted[i]);
  }

  ghost predicate WeightsAreWeighable(shares: seq<Share>) {
    Weighable(Weights(shares)) && Sum(Basis(Weights(shares))) > 0
  }

  /** The version that is named gets exactly what was asked for it. */
  lemma RolloutNamesItsShare(current: seq<Share>, version: nat, weight: int)
    requires InRange(current) && Distinct(current) && Others(current, version) != []
    ensures WeightIn(ApplyRollout(current, version, weight), version) == weight
  {
    var others := Others(current, version);
    RolloutMembers(current, version, weight);
    var named := Unsorted(others, version, weight)[|others|];
    assert named == Share(version, weight) && named in Unsorted(others, version, weight);
    WeightInFound(ApplyRollout(current, version, weight), named);
  }

  /**
   A rollout is an exact apportionment: every version that is not named gets the floor or
   the ceiling of its proportional share of the rest, and one at 0 stays at 0.
   */
  lemma RolloutIsProportional(current: seq<Share>, version: nat, weight: int, s: Share)
    requires InRange(current) && Distinct(current) && 0 <= weight <= TOTAL_WEIGHT
    requires s in current && s.version != version && Sum(Weights(Others(current, version))) > 0
    ensures FloorOrCeiling(WeightIn(ApplyRollout(current, version, weight), s.version),
                           s.weight * (TOTAL_WEIGHT - weight), Sum(Weights(Others(current, version))))
    ensures s.weight == 0 ==> WeightIn(ApplyRollout(current, version, weight), s.version) == 0
  {
    hide ApplyRollout, WeightIn, Apportion, Others, FloorOrCeiling;
    var others := Others(current, version);
    var i :| 0 <= i < |others| && others[i] == s;
    RolloutShare(current, version, weight, i);
    ApportionQuota(Weights(others), TOTAL_WEIGHT - weight, i);
    if s.weight == 0 {
      ApportionKeepsZero(Weights(others), TOTAL_WEIGHT - weight, i);
    }
  }

  /** A strictly larger share never ends below a smaller one. */
  lemma RolloutKeepsOrder(current: seq<Share>, version: nat, weight: int, s: Share, t: Share)
    requires InRange(current) && Distinct(current) && 0 <= weight <= TOTAL_WEIGHT
    requires s in current && t in current && s.version != version && t.version != version
    requires s.weight > t.weight
    ensures WeightIn(ApplyRollout(current, version, weight), s.version)
         >= WeightIn(ApplyRollout(current, version, weight), t.version)
  {
    hide ApplyRollout, WeightIn, Apportion, Others;
    var others := Others(current, version);
    var i :| 0 <= i < |others| && others[i] == s;
    var j :| 0 <= j < |others| && others[j] == t;
    RolloutShare(current, version, weight, i);
    RolloutShare(current, version, weight, j);
    ApportionMonotone(Weights(others), TOTAL_WEIGHT - weight, i, j);
  }

  lemma {:induction false} OthersTotal(current: seq<Share>, version: nat, s: Share)
    requires Distinct(current) && s in current && s.version == version
    ensures Sum(Weights(Others(current, version))) == Sum(Weights(current)) - s.weight
  {
    hide Sum, Weights;
    var first, rest := current[0], current[1..];
    assert current == [first] + rest;
    WeightsCons(first, rest);
    var k :| 0 <= k < |current| && current[k] == s;
    if k == 0 {
      NoOthersDropped(rest, version);
    } else {
      assert first.version != version && s == rest[k - 1];
      OthersTotal(rest, version, s);
      WeightsCons(first, Others(rest, version));
    }
  }

  lemma {:induction false} NoOthersDropped(current: seq<Share>, version: nat)
    requires forall s :: s in current ==> s.version != version
    ensures Others(current, version) == current
  {
    if current != [] {
      NoOthersDropped(current[1..], version);
    }
  }

  /** Asking for the share a version already has changes nothing. */
  lemma RolloutIdempotent(current: seq<Share>, s: Share)
    requires ValidSplit(current) && Ascending(current) && s in current
    ensures ApplyRollout(current, s.version, s.weight) == current
  {
    var others := Others(current, s.version);
    OthersTotal(current, s.version, s);
    if others == [] {
      assert current == [s] by {
        assert forall i :: 0 <= i < |current| ==> current[i] in current;
      }
    } else {
      RolloutMembers(current, s.version, s.weight);
      WeightsWeighable(others);
      ApportionIdentity(Weights(others));
      assert Reweighted(others, Weights(others)) == others;
      assert Unsorted(others, s.version, s.weight) == others + [s];
      forall t ensures t in current <==> t in others + [s] {
        if t in current && t.version == s.version {
          var i :| 0 <= i < |current| && current[i] == t;
          var j :| 0 <= j < |current| && current[j] == s;
          assert i == j;
        }
      }
      AscendingUnique(ApplyRollout(current, s.version, s.weight), current);
    }
  }
}
