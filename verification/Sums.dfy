/** Finite sums of functions, for totals over the pixels of an image. */
module Sums {

  function SumTo(n: nat, f: int -> int): int {
    if n == 0 then 0 else SumTo(n - 1, f) + f(n - 1)
  }

  lemma {:induction false} SumCong(n: nat, f: int -> int, g: int -> int)
    requires forall i :: 0 <= i < n ==> f(i) == g(i)
    ensures SumTo(n, f) == SumTo(n, g)
  {
    if n > 0 {
      SumCong(n - 1, f, g);
    }
  }

  lemma {:induction false} SumScale(n: nat, k: int, f: int -> int, g: int -> int)
    requires forall i :: 0 <= i < n ==> g(i) == k * f(i)
    ensures SumTo(n, g) == k * SumTo(n, f)
  {
    if n > 0 {
      SumScale(n - 1, k, f, g);
      assert k * (SumTo(n - 1, f) + f(n - 1)) == k * SumTo(n - 1, f) + k * f(n - 1);
    }
  }

  lemma {:induction false} SumAdd(n: nat, f: int -> int, g: int -> int, h: int -> int)
    requires forall i :: 0 <= i < n ==> h(i) == f(i) + g(i)
    ensures SumTo(n, h) == SumTo(n, f) + SumTo(n, g)
  {
    if n > 0 {
      SumAdd(n - 1, f, g, h);
    }
  }

  lemma {:induction false} SumZero(n: nat, f: int -> int)
    requires forall i :: 0 <= i < n ==> f(i) == 0
    ensures SumTo(n, f) == 0
  {
    if n > 0 {
      SumZero(n - 1, f);
    }
  }

  lemma {:induction false} SumOrder(n: nat, f: int -> int, g: int -> int)
    requires forall i :: 0 <= i < n ==> f(i) <= g(i)
    ensures SumTo(n, f) <= SumTo(n, g)
  {
    if n > 0 {
      SumOrder(n - 1, f, g);
    }
  }

  /** A sum with one nonzero term. */
  lemma {:induction false} SumSingle(n: nat, f: int -> int, k: nat)
    requires k < n && forall i :: 0 <= i < n && i != k ==> f(i) == 0
    ensures SumTo(n, f) == f(k)
  {
    if k < n - 1 {
      SumSingle(n - 1, f, k);
    } else {
      SumZero(n - 1, f);
    }
  }

  function At(f: (int, int) -> int, i: int): int -> int {
    j => f(i, j)
  }

  function RowSums(m: nat, f: (int, int) -> int): int -> int {
    i => SumTo(m, At(f, i))
  }

  function Flip(f: (int, int) -> int): (int, int) -> int {
    (j, i) => f(i, j)
  }

  function SumOver(n: nat, m: nat, f: (int, int) -> int): int {
    SumTo(n, RowSums(m, f))
  }

  lemma {:induction false} SumSwap(n: nat, m: nat, f: (int, int) -> int)
    ensures SumOver(n, m, f) == SumOver(m, n, Flip(f))
  {
    if n == 0 {
      SumZero(m, RowSums(0, Flip(f)));
    } else {
      SumSwap(n - 1, m, f);
      SumAdd(m, RowSums(n - 1, Flip(f)), At(f, n - 1), RowSums(n, Flip(f)));
    }
  }

  lemma SumOverOrder(n: nat, m: nat, f: (int, int) -> int, g: (int, int) -> int)
    requires forall i, j :: 0 <= i < n && 0 <= j < m ==> f(i, j) <= g(i, j)
    ensures SumOver(n, m, f) <= SumOver(n, m, g)
  {
    forall i | 0 <= i < n ensures RowSums(m, f)(i) <= RowSums(m, g)(i) {
      SumOrder(m, At(f, i), At(g, i));
    }
    SumOrder(n, RowSums(m, f), RowSums(m, g));
  }

  lemma SumOverScale(n: nat, m: nat, k: int, f: (int, int) -> int, g: (int, int) -> int)
    requires forall i, j :: 0 <= i < n && 0 <= j < m ==> g(i, j) == k * f(i, j)
    ensures SumOver(n, m, g) == k * SumOver(n, m, f)
  {
    forall i | 0 <= i < n ensures RowSums(m, g)(i) == k * RowSums(m, f)(i) {
      SumScale(m, k, At(f, i), At(g, i));
    }
    SumScale(n, k, RowSums(m, f), RowSums(m, g));
  }

  /** A double sum of products is the product of the sums. */
  lemma SumOfProducts(n: nat, m: nat, f: int -> int, g: int -> int, p: (int, int) -> int)
    requires forall i, j :: 0 <= i < n && 0 <= j < m ==> p(i, j) == f(i) * g(j)
    ensures SumOver(n, m, p) == SumTo(n, f) * SumTo(m, g)
  {
    forall i | 0 <= i < n ensures RowSums(m, p)(i) == SumTo(m, g) * f(i) {
      SumScale(m, f(i), g, At(p, i));
    }
    SumScale(n, SumTo(m, g), f, RowSums(m, p));
  }
}
