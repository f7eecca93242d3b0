/** Small vocabulary shared by the other modules. */
module Prelude {

  datatype Option<+T> = None | Some(value: T)

  datatype Result<+T, +E> = Ok(value: T) | Err(error: E)

  function Min(a: int, b: int): int {
    if a <= b then a else b
  }

  function Max(a: int, b: int): int {
    if a >= b then a else b
  }

  function Sum(s: seq<int>): int {
    if s == [] then 0 else Sum(s[..|s| - 1]) + s[|s| - 1]
  }

  lemma {:induction false} SumUpdate(s: seq<int>, i: nat, x: int)
    requires i < |s|
    ensures Sum(s[i := x]) == Sum(s) - s[i] + x
  {
    var n := |s| - 1;
    if i < n {
      SumUpdate(s[..n], i, x);
      assert s[i := x][..n] == s[..n][i := x];
    } else {
      assert s[i := x][..n] == s[..n];
    }
  }

  lemma {:induction false} SumAppend(s: seq<int>, t: seq<int>)
    ensures Sum(s + t) == Sum(s) + Sum(t)
  {
    if t == [] {
      assert s + t == s;
    } else {
      assert (s + t)[..|s + t| - 1] == s + t[..|t| - 1];
      SumAppend(s, t[..|t| - 1]);
    }
  }

  lemma {:induction false} SumNonNegative(s: seq<int>)
    requires forall i :: 0 <= i < |s| ==> s[i] >= 0
    ensures Sum(s) >= 0
    ensures forall i :: 0 <= i < |s| ==> s[i] <= Sum(s)
  {
    if s != [] {
      SumNonNegative(s[..|s| - 1]);
      assert forall i :: 0 <= i < |s| - 1 ==> s[i] == s[..|s| - 1][i];
    }
  }

  /** If every term satisfies `a = k*q + f`, so do the sums. */
  lemma {:induction false} SumLinear(a: seq<int>, k: int, q: seq<int>, f: seq<int>)
    requires |a| == |q| == |f|
    requires forall i :: 0 <= i < |a| ==> a[i] == k * q[i] + f[i]
    ensures Sum(a) == k * Sum(q) + Sum(f)
  {
    if a != [] {
      var n := |a| - 1;
      SumLinear(a[..n], k, q[..n], f[..n]);
      assert k * (Sum(q[..n]) + q[n]) == k * Sum(q[..n]) + k * q[n];
    }
  }

  /** The integers of an interval. */
  function Interval(lo: int, hi: int): (s: set<int>)
    ensures forall b :: b in s <==> lo <= b < hi
    ensures |s| == if lo <= hi then hi - lo else 0
    decreases hi - lo
  {
    if lo < hi then Interval(lo, hi - 1) + {hi - 1} else {}
  }

  lemma SubsetSize<T>(a: set<T>, b: set<T>)
    requires a <= b
    ensures |b - a| == |b| - |a|
  {
    assert b == a + (b - a);
  }

  lemma {:induction false} AllZeroSum(ws: seq<int>)
    requires forall i :: 0 <= i < |ws| ==> ws[i] == 0
    ensures Sum(ws) == 0
  {
    if ws != [] {
      AllZeroSum(ws[..|ws| - 1]);
    }
  }

  lemma AtLeastOneTimes(t: int, d: int)
    requires t > 0 && d >= 1
    ensures t * d >= t
  {
  }

  /** Division is monotone, and equal quotients leave the difference to the remainders. */
  lemma QuotientOrder(t: int, qa: int, ra: int, qb: int, rb: int)
    requires 0 <= ra < t && 0 <= rb < t
    requires t * qa + ra <= t * qb + rb
    ensures qa <= qb
  {
    assert t * (qa - qb) == t * qa - t * qb < t;
    if qa > qb {
      AtLeastOneTimes(t, qa - qb);
    }
  }

  lemma DivisionParts(a: int, t: int)
    requires t > 0
    ensures a == t * (a / t) + a % t && 0 <= a % t < t
  {
  }

  lemma TimesMonotone(t: int, a: int, b: int)
    requires t >= 0 && a <= b
    ensures t * a <= t * b
  {
  }
}
