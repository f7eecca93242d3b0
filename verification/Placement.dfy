/**
 Choosing a node for a job (placement.js).

 A node's name is represented by its place in the collation order, which is all the code
 uses a name for; node names are unique (compute_nodes has a unique name).
 */
module Placement {
  import opened Prelude

  datatype Health = OK | UNKNOWN | DEGRADED | FAILED

  datatype Gpu = Gpu(memoryTotal: nat, health: Health)

  datatype Resources = Resources(cpu: int, memory: int, gpu: int)

  datatype Node = Node(name: nat, ready: bool, cpuCores: int, memory: int, reservedCpu: int, reservedMemory: int,
                       gpuCapacity: int, gpus: seq<Gpu>, committed: Resources)

  datatype Request = Request(cpu: nat, memory: nat, gpu: nat, gpuMemoryMin: nat)

  // ------------------------------------------------------------------ capacity

  predicate Usable(g: Gpu) {
    g.health.OK? || g.health.UNKNOWN?
  }

  /** The devices of a node that satisfy what is asked of one, as positions in its list. */
  function Healthy(n: Node): set<nat> {
    set i: nat | i < |n.gpus| && Usable(n.gpus[i])
  }

  function BigEnough(n: Node, least: nat): set<nat> {
    set i | i in Healthy(n) && n.gpus[i].memoryTotal >= least
  }

  function SchedulableGpus(n: Node): int {
    if n.gpus == [] then n.gpuCapacity else Min(n.gpuCapacity, |Healthy(n)|)
  }

  /** What a node offers before anything is committed on it. */
  function Offered(n: Node): Resources {
    Resources(n.cpuCores - n.reservedCpu, n.memory - n.reservedMemory, SchedulableGpus(n))
  }

  function Free(n: Node): Resources {
    Resources(Offered(n).cpu - n.committed.cpu, Offered(n).memory - n.committed.memory,
              Offered(n).gpu - n.committed.gpu)
  }

  // ---------------------------------------------------------------- one node

  datatype Code = NotReady | GpuNotSchedulable | GpuUnhealthy | GpuCount | GpuMemory | Cpu | Memory

  datatype Verdict = Fits(free: Resources) | Rejected(code: Code)

  function AvailableBigEnough(n: Node, least: nat): int {
    Max(0, |BigEnough(n, least)| - n.committed.gpu)
  }

  function EvaluateGpus(n: Node, r: Request): Option<Code> {
    if r.gpu == 0 then None
    else if n.gpuCapacity == 0 then Some(GpuNotSchedulable)
    else if n.gpus != [] && Healthy(n) == {} then Some(GpuUnhealthy)
    else if Free(n).gpu < r.gpu then Some(GpuCount)
    else if r.gpuMemoryMin > 0 && AvailableBigEnough(n, r.gpuMemoryMin) < r.gpu then Some(GpuMemory)
    else None
  }

  function Evaluate(n: Node, r: Request): Verdict {
    var free := Free(n);
    if !n.ready then Rejected(NotReady)
    else
      var gpus := EvaluateGpus(n, r);
      if gpus.Some? then Rejected(gpus.value)
      else if free.cpu < r.cpu then Rejected(Cpu)
      else if r.memory > 0 && free.memory < r.memory then Rejected(Memory)
      else Fits(free)
  }

  predicate FitsOn(n: Node, r: Request) {
    Evaluate(n, r).Fits?
  }

  /** Which of a node's devices the committed jobs hold, as far as anyone knows. */
  predicate PossiblyBusy(n: Node, busy: set<nat>) {
    busy <= Healthy(n) && |busy| == Max(0, Min(n.committed.gpu, |Healthy(n)|))
  }

  lemma {:induction false} SubsetOfSize(s: set<nat>, k: nat) returns (t: set<nat>)
    requires k <= |s|
    ensures t <= s && |t| == k
  {
    if k == |s| {
      t := s;
    } else {
      var x :| x in s;
      t := SubsetOfSize(s - {x}, k);
    }
  }

  /** Between a set and a larger one there is a set of every size. */
  lemma SetOfSizeBetween(small: set<nat>, large: set<nat>, k: nat) returns (t: set<nat>)
    requires small <= large && |small| <= k <= |large|
    ensures small <= t <= large && |t| == k
  {
    assert |large - small| == |large| - |small|;
    var more := SubsetOfSize(large - small, k - |small|);
    t := small + more;
  }

  lemma BusyLeavesAtLeast(n: Node, least: nat, busy: set<nat>)
    requires PossiblyBusy(n, busy) && n.committed.gpu >= 0
    ensures |BigEnough(n, least) - busy| >= AvailableBigEnough(n, least)
  {
    var big := BigEnough(n, least);
    SubsetSize(big * busy, big);
    SubsetSize(big * busy, busy);
    assert big - busy == big - big * busy;
  }

  lemma WorstCase(n: Node, least: nat) returns (busy: set<nat>)
    requires n.committed.gpu >= 0
    ensures PossiblyBusy(n, busy)
    ensures |BigEnough(n, least) - busy| == AvailableBigEnough(n, least)
  {
    var big, healthy := BigEnough(n, least), Healthy(n);
    SubsetSize(big, healthy);
    var k := Min(n.committed.gpu, |healthy|);
    if k <= |big| {
      busy := SubsetOfSize(big, k);
      SubsetSize(busy, big);
    } else {
      busy := SetOfSizeBetween(big, healthy, k);
      assert big - busy == {};
    }
  }

  /** The devices of a node that can be given out: those found healthy, or not found to be otherwise. */
  function GoodDevices(n: Node): set<nat> {
    set i: nat | i < |n.gpus| && n.gpus[i].health != DEGRADED && n.gpus[i].health != FAILED
  }

  lemma GoodIsHealthy(n: Node)
    ensures GoodDevices(n) == Healthy(n)
  {
    forall i: nat ensures i in GoodDevices(n) <==> i in Healthy(n) {
    }
  }

  /** The good devices of at least a given memory. */
  function GoodDevicesOf(n: Node, least: nat): set<nat> {
    set i | i in GoodDevices(n) && n.gpus[i].memoryTotal >= least
  }

  /**
   The device-memory test is exact: enough big devices remain free whichever good devices the
   committed jobs were given, precisely when the count says so.
   */
  lemma MemoryTestIsExact(n: Node, r: Request)
    requires n.committed.gpu >= 0
    ensures AvailableBigEnough(n, r.gpuMemoryMin) >= r.gpu <==>
      forall busy: set<nat> | busy <= GoodDevices(n) && |busy| == Min(n.committed.gpu, |GoodDevices(n)|) ::
        |GoodDevicesOf(n, r.gpuMemoryMin) - busy| >= r.gpu
  {
    hide AvailableBigEnough, BigEnough;
    GoodIsHealthy(n);
    BigIsGood(n, r.gpuMemoryMin);
    forall busy | PossiblyBusy(n, busy)
      ensures |BigEnough(n, r.gpuMemoryMin) - busy| >= AvailableBigEnough(n, r.gpuMemoryMin)
    {
      BusyLeavesAtLeast(n, r.gpuMemoryMin, busy);
    }
    var worst := WorstCase(n, r.gpuMemoryMin);
  }

  lemma BigIsGood(n: Node, least: nat)
    ensures GoodDevicesOf(n, least) == BigEnough(n, least)
  {
    GoodIsHealthy(n);
  }

  /** A node that fits has room for the request in every respect, and is ready. */
  lemma FittingHasRoom(n: Node, r: Request)
    requires FitsOn(n, r)
    ensures n.ready && n.committed.cpu + r.cpu <= Offered(n).cpu
    ensures r.memory > 0 ==> n.committed.memory + r.memory <= Offered(n).memory
    ensures r.gpu > 0 ==> n.committed.gpu + r.gpu <= Offered(n).gpu
    ensures r.gpu > 0 && n.gpus != [] ==> |Healthy(n)| >= n.committed.gpu + r.gpu
  {
    hide Healthy;
  }

  /**
   A node fits exactly when it is ready and, on top of what is committed and reserved, it has the
   cores, the memory if any is asked for, and the GPUs: no more than are granted to it and, where
   its devices are known, than are good.
   */
  lemma FitsExactly(n: Node, r: Request)
    ensures FitsOn(n, r) <==>
      && n.ready
      && n.committed.cpu + r.cpu <= n.cpuCores - n.reservedCpu
      && (r.memory > 0 ==> n.committed.memory + r.memory <= n.memory - n.reservedMemory)
      && (r.gpu > 0 ==>
           && n.gpuCapacity != 0 && n.committed.gpu + r.gpu <= n.gpuCapacity
           && (n.gpus != [] ==> GoodDevices(n) != {} && n.committed.gpu + r.gpu <= |GoodDevices(n)|))
      && (r.gpu > 0 && r.gpuMemoryMin > 0 ==> r.gpu <= AvailableBigEnough(n, r.gpuMemoryMin))
  {
    hide Healthy, BigEnough, GoodDevices;
    GoodIsHealthy(n);
  }

  /** What a node can lack, by the code it is refused with. */
  predicate Lacks(n: Node, r: Request, code: Code) {
    match code
    case NotReady => !n.ready
    case GpuNotSchedulable => r.gpu > 0 && n.gpuCapacity == 0
    case GpuUnhealthy => r.gpu > 0 && n.gpus != [] && GoodDevices(n) == {}
    case GpuCount =>
      r.gpu > 0 && (n.gpuCapacity < n.committed.gpu + r.gpu
                    || (n.gpus != [] && |GoodDevices(n)| < n.committed.gpu + r.gpu))
    case GpuMemory => r.gpu > 0 && r.gpuMemoryMin > 0 && AvailableBigEnough(n, r.gpuMemoryMin) < r.gpu
    case Cpu => n.cpuCores - n.reservedCpu < n.committed.cpu + r.cpu
    case Memory => r.memory > 0 && n.memory - n.reservedMemory < n.committed.memory + r.memory
  }

  const CODES: seq<Code> := [NotReady, GpuNotSchedulable, GpuUnhealthy, GpuCount, GpuMemory, Cpu, Memory]

  /** A node is refused for the first thing it lacks. */
  lemma RefusedForTheFirstLack(n: Node, r: Request, k: nat)
    requires k < |CODES|
    ensures Evaluate(n, r) == Rejected(CODES[k]) <==> Lacks(n, r, CODES[k]) && forall i :: 0 <= i < k ==> !Lacks(n, r, CODES[i])
  {
    hide Healthy, BigEnough, GoodDevices;
    GoodIsHealthy(n);
    assert k > 0 ==> CODES[0] == NotReady;
    assert k > 1 ==> CODES[1] == GpuNotSchedulable;
    assert k > 2 ==> CODES[2] == GpuUnhealthy;
    assert k > 3 ==> CODES[3] == GpuCount;
    assert k > 4 ==> CODES[4] == GpuMemory;
    assert k > 5 ==> CODES[5] == Cpu;
  }

  // ---------------------------------------------------------------- the ranking

  /** What candidates are compared on first: GPUs left over, or GPUs a CPU job would waste. */
  function GpuKey(n: Node, r: Request): int {
    if r.gpu > 0 then Free(n).gpu - r.gpu else SchedulableGpus(n)
  }

  predicate Better(a: Node, b: Node, r: Request) {
    if GpuKey(a, r) != GpuKey(b, r) then GpuKey(a, r) < GpuKey(b, r)
    else if Free(a).cpu != Free(b).cpu then Free(a).cpu - r.cpu < Free(b).cpu - r.cpu
    else a.name < b.name
  }

  lemma BetterIsStrictOrder(a: Node, b: Node, c: Node, r: Request)
    ensures !Better(a, a, r)
    ensures Better(a, b, r) && Better(b, c, r) ==> Better(a, c, r)
    ensures a.name != b.name ==> Better(a, b, r) || Better(b, a, r)
    ensures Better(a, b, r) ==> !Better(b, a, r)
  {
    hide SchedulableGpus, Free;
  }

  function InsertRanked(n: Node, sorted: seq<Node>, r: Request): (out: seq<Node>)
    ensures multiset(out) == multiset(sorted) + multiset{n}
  {
    if sorted == [] then [n]
    else if Better(sorted[0], n, r) then
      assert sorted == [sorted[0]] + sorted[1..];
      [sorted[0]] + InsertRanked(n, sorted[1..], r)
    else [n] + sorted
  }

  /** The fitting nodes, best first. */
  function Rank(ns: seq<Node>, r: Request): (out: seq<Node>)
    ensures multiset(out) == multiset(ns)
  {
    if ns == [] then []
    else
      assert ns == [ns[0]] + ns[1..];
      InsertRanked(ns[0], Rank(ns[1..], r), r)
  }

  ghost predicate Ranked(s: seq<Node>, r: Request) {
    forall i, j :: 0 <= i < j < |s| ==> !Better(s[j], s[i], r)
  }

  lemma {:induction false} InsertKeepsRanked(n: Node, sorted: seq<Node>, r: Request)
    requires Ranked(sorted, r)
    ensures Ranked(InsertRanked(n, sorted, r), r)
  {
    hide Better;
    var out := InsertRanked(n, sorted, r);
    if sorted != [] && Better(sorted[0], n, r) {
      InsertKeepsRanked(n, sorted[1..], r);
      forall j | 0 < j < |out| ensures !Better(out[j], out[0], r) {
        assert out[j] in multiset(InsertRanked(n, sorted[1..], r));
        BetterIsStrictOrder(sorted[0], n, sorted[0], r);
        assert out[j] == n || out[j] in sorted[1..];
      }
    } else if sorted != [] {
      forall j | 0 < j < |out| ensures !Better(out[j], n, r) {
        BetterIsStrictOrder(sorted[0], sorted[0], sorted[0], r);
        assert out[j] == sorted[j - 1];
        NotBetterChain(out[j], sorted[0], n, r);
      }
    }
  }

  lemma NotBetterChain(a: Node, b: Node, c: Node, r: Request)
    requires !Better(a, b, r) && !Better(b, c, r)
    ensures !Better(a, c, r)
  {
    hide SchedulableGpus, Free;
  }

  lemma {:induction false} RankIsRanked(ns: seq<Node>, r: Request)
    ensures Ranked(Rank(ns, r), r)
  {
    if ns != [] {
      RankIsRanked(ns[1..], r);
      InsertKeepsRanked(ns[0], Rank(ns[1..], r), r);
    }
  }

  // ------------------------------------------------------------------ the choice

  datatype Outcome = SELECTED | VIABLE | REJECTED

  /** A line of the audit trail. */
  datatype Decision = Decision(name: nat, outcome: Outcome, code: Option<Code>, free: Resources)

  datatype Placed = Placed(node: Option<Node>, decisions: seq<Decision>)

  function Fitting(ns: seq<Node>, r: Request): (out: seq<Node>)
    ensures forall n :: n in out <==> n in ns && FitsOn(n, r)
  {
    if ns == [] then []
    else if FitsOn(ns[0], r) then [ns[0]] + Fitting(ns[1..], r)
    else Fitting(ns[1..], r)
  }

  function DecisionRow(n: Node, r: Request): Decision {
    match Evaluate(n, r)
    case Fits(free) => Decision(n.name, VIABLE, None, free)
    case Rejected(code) => Decision(n.name, REJECTED, Some(code), Free(n))
  }

  function Except(ns: seq<Node>, name: nat, r: Request): seq<Decision> {
    if ns == [] then []
    else if ns[0].name == name then Except(ns[1..], name, r)
    else [DecisionRow(ns[0], r)] + Except(ns[1..], name, r)
  }

  function PlaceJob(r: Request, ns: seq<Node>): Placed {
    var fitting := Fitting(ns, r);
    if fitting == [] then Placed(None, seq(|ns|, i requires 0 <= i < |ns| => DecisionRow(ns[i], r)))
    else
      var ranked := Rank(fitting, r);
      assert fitting[0] in multiset(ranked);
      var winner := ranked[0];
      Placed(Some(winner), [DecisionRow(winner, r).(outcome := SELECTED)] + Except(ns, winner.name, r))
  }

  ghost predicate UniqueNames(ns: seq<Node>) {
    forall i, j :: 0 <= i < j < |ns| ==> ns[i].name != ns[j].name
  }

  /**
   A node is chosen exactly when some node fits; the one chosen fits, and comes before every
   other that does.
   */
  lemma ChoosesTheBest(r: Request, ns: seq<Node>)
    ensures PlaceJob(r, ns).node.Some? <==> exists n :: n in ns && FitsOn(n, r)
    ensures PlaceJob(r, ns).node.Some? ==>
      var winner := PlaceJob(r, ns).node.value;
      winner in ns && FitsOn(winner, r)
      && forall n :: n in ns && FitsOn(n, r) && n.name != winner.name ==> Better(winner, n, r)
  {
    hide Evaluate, Better, Except, DecisionRow, FitsOn;
    var fitting := Fitting(ns, r);
    if fitting != [] {
      assert fitting[0] in fitting;
      var ranked := Rank(fitting, r);
      RankIsRanked(fitting, r);
      assert multiset(ranked) == multiset(fitting);
      assert fitting[0] in multiset(ranked);
      var winner := ranked[0];
      assert winner in multiset(fitting);
      forall n | n in ns && FitsOn(n, r) && n.name != winner.name ensures Better(winner, n, r) {
        assert n in multiset(ranked);
        var j :| 0 <= j < |ranked| && ranked[j] == n;
        BetterIsStrictOrder(winner, n, winner, r);
      }
    } else {
      assert forall n :: n in ns && FitsOn(n, r) ==> n in fitting;
    }
  }

  lemma NoneIsBetter(r: Request, ns: seq<Node>, n: Node)
    requires PlaceJob(r, ns).node.Some? && n in ns && FitsOn(n, r)
    ensures !Better(n, PlaceJob(r, ns).node.value, r)
  {
    hide Evaluate, Better, Except, DecisionRow, FitsOn;
    var ranked := Rank(Fitting(ns, r), r);
    RankIsRanked(Fitting(ns, r), r);
    assert n in multiset(ranked);
    var j :| 0 <= j < |ranked| && ranked[j] == n;
    BetterIsStrictOrder(n, n, n, r);
  }

  /**
   The tightest fit: of the nodes that fit, the one chosen leaves the fewest GPUs over, or for a
   job that wants none has the fewest to waste; among those it leaves the fewest cores; and among
   those it comes first by name.
   */
  lemma ChoosesTheTightest(r: Request, ns: seq<Node>, n: Node)
    requires PlaceJob(r, ns).node.Some? && n in ns && FitsOn(n, r)
    ensures var w := PlaceJob(r, ns).node.value;
      var a := if r.gpu > 0 then Free(w).gpu else SchedulableGpus(w);
      var b := if r.gpu > 0 then Free(n).gpu else SchedulableGpus(n);
      && a <= b
      && (a == b ==> Free(w).cpu <= Free(n).cpu)
      && (a == b && Free(w).cpu == Free(n).cpu ==> w.name <= n.name)
  {
    hide PlaceJob, FitsOn, Free, SchedulableGpus;
    NoneIsBetter(r, ns, n);
  }

  /** What a node has free, and how many GPUs it may give out, in terms of the node. */
  lemma FreeIsWhatIsLeft(n: Node)
    ensures Free(n).cpu == n.cpuCores - n.reservedCpu - n.committed.cpu
    ensures Free(n).memory == n.memory - n.reservedMemory - n.committed.memory
    ensures Free(n).gpu == SchedulableGpus(n) - n.committed.gpu
    ensures SchedulableGpus(n) <= n.gpuCapacity
    ensures n.gpus == [] || n.gpuCapacity <= |GoodDevices(n)| ==> SchedulableGpus(n) == n.gpuCapacity
    ensures n.gpus != [] && |GoodDevices(n)| <= n.gpuCapacity ==> SchedulableGpus(n) == |GoodDevices(n)|
  {
    hide Healthy, GoodDevices;
    GoodIsHealthy(n);
  }

  /** The line a node gets: selected if it won, else whether it fitted and why not. */
  function AuditRow(n: Node, r: Request, winner: Option<Node>): Decision {
    if winner.Some? && n.name == winner.value.name then DecisionRow(n, r).(outcome := SELECTED) else DecisionRow(n, r)
  }

  lemma RowKeepsName(n: Node, r: Request)
    ensures DecisionRow(n, r).name == n.name
  {
  }

  lemma {:induction false} ExceptHas(ns: seq<Node>, name: nat, r: Request, n: Node)
    requires n in ns && n.name != name
    ensures DecisionRow(n, r) in Except(ns, name, r)
  {
    hide DecisionRow;
    if n != ns[0] {
      ExceptHas(ns[1..], name, r, n);
    }
  }

  lemma {:induction false} ExceptFrom(ns: seq<Node>, name: nat, r: Request, d: Decision)
    requires d in Except(ns, name, r)
    ensures d.name != name && exists n :: n in ns && n.name == d.name
  {
    hide DecisionRow;
    RowKeepsName(ns[0], r);
    if ns[0].name == name || d != DecisionRow(ns[0], r) {
      ExceptFrom(ns[1..], name, r, d);
      var n :| n in ns[1..] && n.name == d.name;
      assert n in ns;
    }
  }

  ghost predicate DistinctRows(ds: seq<Decision>) {
    forall i, j :: 0 <= i < j < |ds| ==> ds[i].name != ds[j].name
  }

  lemma {:induction false} ExceptDistinct(ns: seq<Node>, name: nat, r: Request)
    requires UniqueNames(ns)
    ensures DistinctRows(Except(ns, name, r))
  {
    hide DecisionRow;
    if ns != [] {
      ExceptDistinct(ns[1..], name, r);
      RowKeepsName(ns[0], r);
      var rest := Except(ns[1..], name, r);
      forall j | 0 <= j < |rest| ensures rest[j].name != ns[0].name {
        ExceptFrom(ns[1..], name, r, rest[j]);
        var n :| n in ns[1..] && n.name == rest[j].name;
        var k :| 0 <= k < |ns[1..]| && ns[1..][k] == n;
        assert ns[k + 1] == n;
      }
    }
  }

  lemma {:induction false} ExceptSize(ns: seq<Node>, name: nat, r: Request, k: int)
    requires UniqueNames(ns) && -1 <= k < |ns|
    requires forall i :: 0 <= i < |ns| ==> (ns[i].name == name <==> i == k)
    ensures |Except(ns, name, r)| == |ns| - (if k >= 0 then 1 else 0)
  {
    hide DecisionRow;
    if ns != [] {
      ExceptSize(ns[1..], name, r, if k > 0 then k - 1 else -1);
    }
  }

  lemma AuditOfNone(r: Request, ns: seq<Node>)
    requires UniqueNames(ns) && PlaceJob(r, ns).node.None?
    ensures var p := PlaceJob(r, ns);
      && |p.decisions| == |ns| && DistinctRows(p.decisions)
      && forall n :: n in ns ==> DecisionRow(n, r) in p.decisions
  {
    hide Evaluate, DecisionRow, Rank;
    var p := PlaceJob(r, ns);
    forall n | n in ns ensures DecisionRow(n, r) in p.decisions {
      var i :| 0 <= i < |ns| && ns[i] == n;
      assert p.decisions[i] == DecisionRow(n, r);
    }
    forall i | 0 <= i < |ns| ensures p.decisions[i].name == ns[i].name {
      RowKeepsName(ns[i], r);
    }
  }

  lemma AuditOfSome(r: Request, ns: seq<Node>, winner: Node)
    requires UniqueNames(ns) && winner in ns
    ensures var ds := [DecisionRow(winner, r).(outcome := SELECTED)] + Except(ns, winner.name, r);
      && |ds| == |ns| && DistinctRows(ds)
      && forall n :: n in ns ==> AuditRow(n, r, Some(winner)) in ds
  {
    hide DecisionRow, Except;
    var others := Except(ns, winner.name, r);
    var ds := [DecisionRow(winner, r).(outcome := SELECTED)] + others;
    RowKeepsName(winner, r);
    ExceptDistinct(ns, winner.name, r);
    var k :| 0 <= k < |ns| && ns[k] == winner;
    ExceptSize(ns, winner.name, r, k);
    forall j | 0 <= j < |others| ensures others[j].name != winner.name {
      ExceptFrom(ns, winner.name, r, others[j]);
    }
    forall n | n in ns ensures AuditRow(n, r, Some(winner)) in ds {
      if n.name == winner.name {
        SameNameSameNode(ns, n, winner);
        assert ds[0] == AuditRow(n, r, Some(winner));
      } else {
        ExceptHas(ns, winner.name, r, n);
      }
    }
  }

  /** The audit trail has one line for each node, saying what became of it. */
  lemma EveryNodeOnce(r: Request, ns: seq<Node>)
    requires UniqueNames(ns)
    ensures var p := PlaceJob(r, ns);
      && |p.decisions| == |ns| && DistinctRows(p.decisions)
      && forall n :: n in ns ==> AuditRow(n, r, p.node) in p.decisions
  {
    hide Evaluate, Better, DecisionRow, Rank, Except, FitsOn, DistinctRows;
    ChoosesTheBest(r, ns);
    if PlaceJob(r, ns).node.Some? {
      AuditOfSome(r, ns, PlaceJob(r, ns).node.value);
    } else {
      AuditOfNone(r, ns);
    }
  }

  lemma SameNameSameNode(ns: seq<Node>, a: Node, b: Node)
    requires UniqueNames(ns) && a in ns && b in ns && a.name == b.name
    ensures a == b
  {
    var i :| 0 <= i < |ns| && ns[i] == a;
    var j :| 0 <= j < |ns| && ns[j] == b;
  }

  /** Which node is chosen does not depend on the order they are listed in. */
  lemma OrderDoesNotMatter(r: Request, ns: seq<Node>, ms: seq<Node>)
    requires UniqueNames(ns) && UniqueNames(ms) && forall n :: n in ns <==> n in ms
    ensures PlaceJob(r, ns).node == PlaceJob(r, ms).node
  {
    hide PlaceJob, Better, FitsOn;
    ChoosesTheBest(r, ns);
    ChoosesTheBest(r, ms);
    if PlaceJob(r, ns).node.Some? {
      var a := PlaceJob(r, ns).node.value;
      assert a in ms && FitsOn(a, r);
      var b := PlaceJob(r, ms).node.value;
      BetterIsStrictOrder(a, b, a, r);
      if a.name == b.name {
        SameNameSameNode(ns, a, b);
      }
    }
  }
}
