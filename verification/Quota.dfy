/** Whether a project can afford one more job (quota.js). */
module Quota {
  import opened Prelude
  import opened Placement

  datatype Quota = Quota(jobLimit: nat, gpuLimit: nat, cpuLimit: nat, memoryLimit: nat)

  /** What a limit is counted in; one of these for each line of the check. */
  datatype Measure = Jobs | Gpus | Cpus | Bytes

  function LimitOf(q: Quota, m: Measure): nat {
    match m
    case Jobs => q.jobLimit
    case Gpus => q.gpuLimit
    case Cpus => q.cpuLimit
    case Bytes => q.memoryLimit
  }

  function Wanted(r: Request, m: Measure): nat {
    match m
    case Jobs => 1
    case Gpus => r.gpu
    case Cpus => r.cpu
    case Bytes => r.memory
  }

  /** A limit of zero is no limit, and wanting nothing is always affordable. */
  predicate Breaches(r: Request, q: Quota, used: Measure -> int, m: Measure) {
    LimitOf(q, m) != 0 && Wanted(r, m) != 0 && used(m) + Wanted(r, m) > LimitOf(q, m)
  }

  const CHECKS: seq<Measure> := [Jobs, Gpus, Cpus, Bytes]

  /** The first limit, in the order they are checked, that one more job would exceed. */
  function FirstBreach(r: Request, q: Quota, used: Measure -> int, from: nat): Option<Measure>
    requires from <= |CHECKS|
    decreases |CHECKS| - from
  {
    if from == |CHECKS| then None
    else if Breaches(r, q, used, CHECKS[from]) then Some(CHECKS[from])
    else FirstBreach(r, q, used, from + 1)
  }

  function CheckQuota(r: Request, q: Quota, used: Measure -> int): Option<Measure> {
    FirstBreach(r, q, used, 0)
  }

  lemma {:induction false} FirstBreachIsFirst(r: Request, q: Quota, used: Measure -> int, from: nat)
    requires from <= |CHECKS|
    ensures match FirstBreach(r, q, used, from)
      case None => forall i :: from <= i < |CHECKS| ==> !Breaches(r, q, used, CHECKS[i])
      case Some(m) =>
        Breaches(r, q, used, m) &&
        (exists i :: from <= i < |CHECKS| && CHECKS[i] == m && forall k :: from <= k < i ==> !Breaches(r, q, used, CHECKS[k]))
    decreases |CHECKS| - from
  {
    hide Breaches;
    if from < |CHECKS| {
      FirstBreachIsFirst(r, q, used, from + 1);
    }
  }

  /** Every measure has its check. */
  function CheckOf(m: Measure): (i: nat)
    ensures i < |CHECKS| && CHECKS[i] == m
  {
    match m
    case Jobs => 0
    case Gpus => 1
    case Cpus => 2
    case Bytes => 3
  }

  /** In terms of the four limits: one more job, its GPUs, its cores and its memory, a limit of zero being none. */
  lemma WithinEachLimit(r: Request, q: Quota, used: Measure -> int)
    ensures CheckQuota(r, q, used).None? <==>
      && (q.jobLimit == 0 || used(Jobs) + 1 <= q.jobLimit)
      && (q.gpuLimit == 0 || r.gpu == 0 || used(Gpus) + r.gpu <= q.gpuLimit)
      && (q.cpuLimit == 0 || r.cpu == 0 || used(Cpus) + r.cpu <= q.cpuLimit)
      && (q.memoryLimit == 0 || r.memory == 0 || used(Bytes) + r.memory <= q.memoryLimit)
  {
    AffordedExactly(r, q, used);
    if CheckQuota(r, q, used).None? {
      assert LimitOf(q, Jobs) == q.jobLimit && LimitOf(q, Gpus) == q.gpuLimit;
      assert LimitOf(q, Cpus) == q.cpuLimit && LimitOf(q, Bytes) == q.memoryLimit;
    }
  }

  /** A job is afforded exactly when no limit would be exceeded by it. */
  lemma AffordedExactly(r: Request, q: Quota, used: Measure -> int)
    ensures CheckQuota(r, q, used).None? <==>
      forall m: Measure :: LimitOf(q, m) == 0 || Wanted(r, m) == 0 || used(m) + Wanted(r, m) <= LimitOf(q, m)
  {
    FirstBreachIsFirst(r, q, used, 0);
    if CheckQuota(r, q, used).None? {
      forall m: Measure ensures !Breaches(r, q, used, m) {
        var i := CheckOf(m);
      }
    }
  }
}
