/**
 Largest-remainder apportionment, the arithmetic behind a change of split.

 Shares are computed exactly: the share `w / T * R` is its whole part `w * R / T` together
 with `w * R % T`, the numerator of its fraction over the common denominator `T`.
 */
module Apportionment {
  import opened Prelude

  // --------------------------------------------- largest-remainder apportionment

  /** One entry of the order in which the rounding remainder is handed out. */
  datatype Slot = Slot(index: nat, fraction: int)

  /** Larger fractions first; equal fractions in list order. */
  predicate Before(a: Slot, b: Slot) {
    a.fraction > b.fraction || (a.fraction == b.fraction && a.index < b.index)
  }

  function Insert(s: Slot, order: seq<Slot>): seq<Slot> {
    if order == [] then [s]
    else if Before(s, order[0]) then [s] + order
    else [order[0]] + Insert(s, order[1..])
  }

  function Order(slots: seq<Slot>): seq<Slot> {
    if slots == [] then [] else Insert(slots[|slots| - 1], Order(slots[..|slots| - 1]))
  }

  /** What each weight's share is proportional to: the weight, or evenly when all are zero. */
  function Basis(ws: seq<int>): (b: seq<int>)
    ensures |b| == |ws|
  {
    if Sum(ws) > 0 then ws else seq(|ws|, i => 1)
  }

  /** The whole part of each share `b / t * remaining`. */
  function WholeParts(basis: seq<int>, t: int, remaining: int): (r: seq<int>)
    requires t > 0
    ensures |r| == |basis|
  {
    if basis == [] then []
    else WholeParts(basis[..|basis| - 1], t, remaining) + [basis[|basis| - 1] * remaining / t]
  }

  /** The fraction of each share `b / t * remaining`, as a numerator over `t`. */
  function FractionSlots(basis: seq<int>, t: int, remaining: int): (r: seq<Slot>)
    requires t > 0
    ensures |r| == |basis|
    ensures forall i :: 0 <= i < |r| ==> r[i].index == i
  {
    if basis == [] then []
    else
      FractionSlots(basis[..|basis| - 1], t, remaining)
      + [Slot(|basis| - 1, basis[|basis| - 1] * remaining % t)]
  }

  lemma {:induction false} PartsAt(basis: seq<int>, t: int, remaining: int, i: nat)
    requires t > 0 && i < |basis|
    ensures WholeParts(basis, t, remaining)[i] == basis[i] * remaining / t
    ensures FractionSlots(basis, t, remaining)[i] == Slot(i, basis[i] * remaining % t)
  {
    if i < |basis| - 1 {
      PartsAt(basis[..|basis| - 1], t, remaining, i);
    }
  }

  function Wholes(ws: seq<int>, remaining: int): (r: seq<int>)
    requires Sum(Basis(ws)) > 0
    ensures |r| == |ws|
  {
    WholeParts(Basis(ws), Sum(Basis(ws)), remaining)
  }

  function Slots(ws: seq<int>, remaining: int): (r: seq<Slot>)
    requires Sum(Basis(ws)) > 0
    ensures |r| == |ws|
    ensures forall i :: 0 <= i < |r| ==> r[i].index == i
  {
    FractionSlots(Basis(ws), Sum(Basis(ws)), remaining)
  }

  function HandOut(rounded: seq<int>, order: seq<Slot>, leftover: int): (r: seq<int>)
    requires forall i :: 0 <= i < |order| ==> order[i].index < |rounded|
    ensures |r| == |rounded|
    decreases |order|
  {
    if order == [] || leftover <= 0 then rounded
    else HandOut(rounded[order[0].index := rounded[order[0].index] + 1], order[1..], leftover - 1)
  }

  ghost predicate Weighable(ws: seq<int>) {
    ws != [] && forall i :: 0 <= i < |ws| ==> ws[i] >= 0
  }

  /** The shares of `remaining` that the given weights are entitled to, in whole numbers. */
  function Apportion(ws: seq<int>, remaining: int): (r: seq<int>)
    requires Sum(Basis(ws)) > 0
    ensures |r| == |ws|
  {
    Round(Wholes(ws, remaining), Slots(ws, remaining), remaining)
  }

  /** Whole parts, topped up to `total` in the order of their fractions. */
  function Round(wholes: seq<int>, slots: seq<Slot>, total: int): (r: seq<int>)
    requires forall s :: s in slots ==> s.index < |wholes|
    ensures |r| == |wholes|
  {
    OrderIndices(slots);
    HandOut(wholes, Order(slots), total - Sum(wholes))
  }

  // The order is a sorted permutation of the slots.

  lemma {:induction false} InsertProperties(s: Slot, order: seq<Slot>)
    ensures multiset(Insert(s, order)) == multiset(order) + multiset{s}
    ensures |Insert(s, order)| == |order| + 1
    ensures SlotSum(Insert(s, order)) == SlotSum(order) + s.fraction
  {
    hide SlotSum, Before;
    if order != [] {
      assert order == [order[0]] + order[1..];
      if !Before(s, order[0]) {
        InsertProperties(s, order[1..]);
        SlotSumCons(order[0], order[1..]);
        SlotSumCons(order[0], Insert(s, order[1..]));
      } else {
        SlotSumCons(s, order);
      }
    } else {
      SlotSumCons(s, []);
      assert [s] + [] == [s];
    }
  }

  function Fractions(order: seq<Slot>): (fs: seq<int>)
    ensures |fs| == |order|
    ensures forall i :: 0 <= i < |fs| ==> fs[i] == order[i].fraction
  {
    seq(|order|, i requires 0 <= i < |order| => order[i].fraction)
  }

  function SlotSum(order: seq<Slot>): int {
    Sum(Fractions(order))
  }

  lemma SlotSumCons(s: Slot, order: seq<Slot>)
    ensures SlotSum([s] + order) == s.fraction + SlotSum(order)
  {
    assert Fractions([s] + order) == [s.fraction] + Fractions(order);
    assert [s.fraction][..0] == [];
    SumAppend([s.fraction], Fractions(order));
  }

  lemma {:induction false} OrderIsPermutation(slots: seq<Slot>)
    ensures multiset(Order(slots)) == multiset(slots)
    ensures |Order(slots)| == |slots|
    ensures SlotSum(Order(slots)) == SlotSum(slots)
  {
    hide Insert;
    if slots != [] {
      var n := |slots| - 1;
      OrderIsPermutation(slots[..n]);
      InsertProperties(slots[n], Order(slots[..n]));
      assert slots == slots[..n] + [slots[n]];
      assert Fractions(slots)[..n] == Fractions(slots[..n]);
    }
  }

  ghost predicate Ordered(order: seq<Slot>) {
    forall i, j :: 0 <= i < j < |order| ==> Before(order[i], order[j])
  }

  ghost predicate DistinctIndices(order: seq<Slot>) {
    forall i, j :: 0 <= i < j < |order| ==> order[i].index != order[j].index
  }

  lemma {:induction false} InsertKeepsOrder(s: Slot, order: seq<Slot>)
    requires Ordered(order)
    requires forall i :: 0 <= i < |order| ==> order[i].index != s.index
    ensures Ordered(Insert(s, order))
    ensures forall t :: t in Insert(s, order) <==> t == s || t in order
  {
    if order != [] && !Before(s, order[0]) {
      InsertKeepsOrder(s, order[1..]);
      assert forall t :: t in order[1..] ==> Before(order[0], t);
      assert Before(order[0], s);
    }
  }

  lemma {:induction false} OrderIsOrdered(slots: seq<Slot>)
    requires DistinctIndices(slots)
    ensures Ordered(Order(slots))
    ensures forall t :: t in Order(slots) <==> t in slots
  {
    if slots != [] {
      var n := |slots| - 1;
      OrderIsOrdered(slots[..n]);
      forall i | 0 <= i < |Order(slots[..n])|
        ensures Order(slots[..n])[i].index != slots[n].index
      {
        assert Order(slots[..n])[i] in slots[..n];
      }
      InsertKeepsOrder(slots[n], Order(slots[..n]));
      assert forall t :: t in slots <==> t in slots[..n] || t == slots[n];
    }
  }

  lemma OrderIndices(slots: seq<Slot>)
    ensures forall i :: 0 <= i < |Order(slots)| ==> Order(slots)[i] in slots
  {
    OrderIsPermutation(slots);
    forall i | 0 <= i < |Order(slots)| ensures Order(slots)[i] in slots {
      assert Order(slots)[i] in multiset(Order(slots));
    }
  }

  // What handing out the remainder does to each share.

  /** `i` is among the first `count` indices of the order. */
  ghost predicate Favoured(order: seq<Slot>, count: int, i: nat) {
    exists k :: 0 <= k < count && k < |order| && order[k].index == i
  }

  lemma {:induction false} HandOutSum(rounded: seq<int>, order: seq<Slot>, leftover: int)
    requires forall i :: 0 <= i < |order| ==> order[i].index < |rounded|
    requires 0 <= leftover <= |order|
    ensures Sum(HandOut(rounded, order, leftover)) == Sum(rounded) + leftover
    decreases |order|
  {
    if order != [] && leftover > 0 {
      var i := order[0].index;
      SumUpdate(rounded, i, rounded[i] + 1);
      HandOutSum(rounded[i := rounded[i] + 1], order[1..], leftover - 1);
    }
  }

  lemma {:induction false} HandOutAt(rounded: seq<int>, order: seq<Slot>, leftover: int, i: nat)
    requires forall k :: 0 <= k < |order| ==> order[k].index < |rounded|
    requires DistinctIndices(order) && i < |rounded|
    ensures HandOut(rounded, order, leftover)[i]
         == rounded[i] + if Favoured(order, leftover, i) then 1 else 0
    decreases |order|
  {
    if order != [] && leftover > 0 {
      var j := order[0].index;
      var rest := order[1..];
      HandOutAt(rounded[j := rounded[j] + 1], rest, leftover - 1, i);
      if Favoured(rest, leftover - 1, i) {
        var k :| 0 <= k < leftover - 1 && k < |rest| && rest[k].index == i;
        assert order[k + 1].index == i;
      }
      if Favoured(order, leftover, i) && i != j {
        var k :| 0 <= k < leftover && k < |order| && order[k].index == i;
        assert rest[k - 1].index == i;
      }
      if i == j {
        assert order[0].index == i;
      }
    }
  }

  // ----------------------------------------------------- the arithmetic of shares

  lemma BasisPositive(ws: seq<int>)
    requires Weighable(ws)
    ensures Sum(Basis(ws)) > 0
    ensures forall i :: 0 <= i < |ws| ==> Basis(ws)[i] >= 0
  {
    SumNonNegative(ws);
    if Sum(ws) <= 0 {
      SumNonNegative(Basis(ws));
      assert Basis(ws)[0] == 1;
    }
  }

  /** The fractions add up to the leftover, over the common denominator. */
  lemma LeftoverIsFractions(ws: seq<int>, remaining: int)
    requires Weighable(ws) && Sum(Basis(ws)) > 0
    ensures SlotSum(Slots(ws, remaining)) == Sum(Basis(ws)) * (remaining - Sum(Wholes(ws, remaining)))
  {
    var b, t := Basis(ws), Sum(Basis(ws));
    var scaled := seq(|ws|, i requires 0 <= i < |ws| => b[i] * remaining);
    var zeros := seq(|ws|, i => 0);
    forall i | 0 <= i < |ws|
      ensures scaled[i] == t * Wholes(ws, remaining)[i] + Fractions(Slots(ws, remaining))[i]
    {
      PartsAt(b, t, remaining, i);
      DivisionParts(b[i] * remaining, t);
    }
    SumLinear(scaled, t, Wholes(ws, remaining), Fractions(Slots(ws, remaining)));
    forall i | 0 <= i < |ws| ensures scaled[i] == remaining * b[i] + zeros[i] {
    }
    SumLinear(scaled, remaining, b, zeros);
    AllZeroSum(zeros);
    assert t * (remaining - Sum(Wholes(ws, remaining))) == t * remaining - t * Sum(Wholes(ws, remaining));
  }

  lemma {:induction false} BoundedSum(fs: seq<int>, bound: int)
    requires forall i :: 0 <= i < |fs| ==> 0 <= fs[i] < bound
    ensures 0 <= Sum(fs)
    ensures fs != [] ==> Sum(fs) < bound * |fs|
  {
    if fs != [] {
      var n := |fs| - 1;
      BoundedSum(fs[..n], bound);
      assert bound * |fs| == bound * n + bound;
    }
  }

  /** The slots of a division by `t` whose fractions add up to `leftover` whole units. */
  ghost predicate Remainders(slots: seq<Slot>, t: int, leftover: int) {
    && slots != []
    && (forall i :: 0 <= i < |slots| ==> slots[i].index == i && 0 <= slots[i].fraction < t)
    && SlotSum(slots) == t * leftover
  }

  lemma DivisionLeavesRemainders(ws: seq<int>, remaining: int)
    requires Weighable(ws)
    ensures Sum(Basis(ws)) > 0
    ensures Remainders(Slots(ws, remaining), Sum(Basis(ws)), remaining - Sum(Wholes(ws, remaining)))
  {
    BasisPositive(ws);
    LeftoverIsFractions(ws, remaining);
    forall i | 0 <= i < |ws| ensures 0 <= Slots(ws, remaining)[i].fraction < Sum(Basis(ws)) {
      PartsAt(Basis(ws), Sum(Basis(ws)), remaining, i);
      DivisionParts(Basis(ws)[i] * remaining, Sum(Basis(ws)));
    }
  }

  lemma OrderShape(slots: seq<Slot>)
    requires forall i :: 0 <= i < |slots| ==> slots[i].index == i
    ensures DistinctIndices(Order(slots)) && Ordered(Order(slots)) && |Order(slots)| == |slots|
    ensures forall s :: s in Order(slots) ==> s.index < |slots| && s == slots[s.index]
    ensures forall i :: 0 <= i < |slots| ==> slots[i] in Order(slots)
  {
    OrderIsOrdered(slots);
    OrderIsPermutation(slots);
    var order := Order(slots);
    forall i, j | 0 <= i < j < |order| ensures order[i].index != order[j].index {
      assert Before(order[i], order[j]);
      assert order[i] in slots && order[j] in slots;
    }
  }

  /** A sorted order of proper fractions that add up to `leftover` whole units. */
  lemma FractionsCoverLeftover(order: seq<Slot>, t: int, leftover: int)
    requires order != [] && Ordered(order)
    requires forall k :: 0 <= k < |order| ==> 0 <= order[k].fraction < t
    requires SlotSum(order) == t * leftover
    ensures 0 <= leftover < |order|
    ensures forall k :: 0 <= k < leftover ==> order[k].fraction > 0
  {
    BoundedSum(Fractions(order), t);
    LeftoverBounds(t, leftover, |order|);
    forall k | 0 <= k < leftover ensures order[k].fraction > 0 {
      if order[k].fraction <= 0 {
        assert forall j :: k < j < |order| ==> Before(order[k], order[j]);
        PrefixCarriesSum(Fractions(order), k, t);
        LeftoverBounds(t, leftover, k + 1);
      }
    }
  }

  /**
   The remainder is smaller than the number of shares, and every share that receives a
   unit of it has a proper fraction to round up.
   */
  lemma RemainderReachesFractionsOnly(slots: seq<Slot>, t: int, leftover: int)
    requires Remainders(slots, t, leftover)
    ensures 0 <= leftover < |slots|
    ensures forall k :: 0 <= k < leftover && k < |Order(slots)| ==> Order(slots)[k].fraction > 0
  {
    var order := Order(slots);
    OrderShape(slots);
    OrderIsPermutation(slots);
    forall k | 0 <= k < |order| ensures 0 <= order[k].fraction < t {
      assert order[k] in order;
    }
    FractionsCoverLeftover(order, t, leftover);
  }

  lemma LeftoverBounds(t: int, leftover: int, n: int)
    requires t > 0 && 0 <= t * leftover < t * n
    ensures 0 <= leftover < n
  {
    assert t * (n - leftover) > 0;
  }

  lemma {:induction false} PrefixCarriesSum(fs: seq<int>, k: nat, bound: int)
    requires k < |fs| && 0 < bound
    requires forall i :: 0 <= i < |fs| ==> 0 <= fs[i] < bound
    requires forall i :: k <= i < |fs| ==> fs[i] == 0
    ensures Sum(fs) < bound * (k + 1)
  {
    var tail := fs[k..];
    AllZeroSum(tail);
    assert fs == fs[..k] + tail;
    SumAppend(fs[..k], tail);
    BoundedSum(fs[..k], bound);
    assert bound * (k + 1) == bound * k + bound;
  }

  // ------------------------------------------- what apportionment guarantees

  /** Rounding adds at most one unit, and only where there was a fraction to round up. */
  lemma RoundAt(wholes: seq<int>, slots: seq<Slot>, t: int, total: int, i: nat)
    requires |slots| == |wholes| && i < |wholes|
    requires Remainders(slots, t, total - Sum(wholes))
    ensures Round(wholes, slots, total)[i]
         == wholes[i] + if Favoured(Order(slots), total - Sum(wholes), i) then 1 else 0
    ensures Favoured(Order(slots), total - Sum(wholes), i) ==> slots[i].fraction > 0
  {
    hide Order, HandOut, Sum, SlotSum, Ordered;
    var order, leftover := Order(slots), total - Sum(wholes);
    OrderShape(slots);
    RemainderReachesFractionsOnly(slots, t, leftover);
    HandOutAt(wholes, order, leftover, i);
    if Favoured(order, leftover, i) {
      var k :| 0 <= k < leftover && k < |order| && order[k].index == i;
      assert order[k] in order;
    }
  }

  lemma RoundTotal(wholes: seq<int>, slots: seq<Slot>, t: int, total: int)
    requires |slots| == |wholes|
    requires Remainders(slots, t, total - Sum(wholes))
    ensures Sum(Round(wholes, slots, total)) == total
  {
    hide Order, HandOut, Sum, SlotSum, Ordered, DistinctIndices;
    OrderShape(slots);
    RemainderReachesFractionsOnly(slots, t, total - Sum(wholes));
    HandOutSum(wholes, Order(slots), total - Sum(wholes));
  }

  /** With equal whole parts, the larger fraction is rounded up first. */
  lemma RoundOrder(wholes: seq<int>, slots: seq<Slot>, t: int, total: int, i: nat, j: nat)
    requires |slots| == |wholes| && i < |wholes| && j < |wholes|
    requires Remainders(slots, t, total - Sum(wholes))
    requires wholes[i] > wholes[j]
          || (wholes[i] == wholes[j] && (slots[j].fraction > 0 ==> slots[i].fraction > slots[j].fraction))
    ensures Round(wholes, slots, total)[i] >= Round(wholes, slots, total)[j]
  {
    var order, leftover := Order(slots), total - Sum(wholes);
    RoundAt(wholes, slots, t, total, i);
    RoundAt(wholes, slots, t, total, j);
    if wholes[i] == wholes[j] && Favoured(order, leftover, j) {
      OrderShape(slots);
      var k :| 0 <= k < leftover && k < |order| && order[k].index == j;
      assert order[k] in order;
      var m :| 0 <= m < |order| && order[m] == slots[i];
      assert !Before(order[k], order[m]);
      assert order[m].index == i;
    }
  }

  /** Of two fractions the larger, or the earlier of two equal ones, is rounded up first. */
  lemma LargerFractionFirst(wholes: seq<int>, slots: seq<Slot>, t: int, total: int, i: nat, j: nat)
    requires |slots| == |wholes| && i < |wholes| && j < |wholes|
    requires Remainders(slots, t, total - Sum(wholes))
    requires slots[i].fraction > slots[j].fraction || (slots[i].fraction == slots[j].fraction && i < j)
    requires Round(wholes, slots, total)[j] > wholes[j]
    ensures Round(wholes, slots, total)[i] == wholes[i] + 1
  {
    hide Order, HandOut, Sum, SlotSum, Round;
    var order, leftover := Order(slots), total - Sum(wholes);
    RoundAt(wholes, slots, t, total, i);
    RoundAt(wholes, slots, t, total, j);
    OrderShape(slots);
    var k :| 0 <= k < leftover && k < |order| && order[k].index == j;
    assert order[k] in order;
    var m :| 0 <= m < |order| && order[m] == slots[i];
    assert !Before(order[k], order[m]);
    assert order[m].index == i;
  }

  /** Nothing is lost to rounding: the shares add up to what was to be divided. */
  lemma ApportionTotal(ws: seq<int>, remaining: int)
    requires Weighable(ws)
    ensures Sum(Basis(ws)) > 0
    ensures Sum(Apportion(ws, remaining)) == remaining
  {
    DivisionLeavesRemainders(ws, remaining);
    RoundTotal(Wholes(ws, remaining), Slots(ws, remaining), Sum(Basis(ws)), remaining);
  }

  /** The floor or the ceiling of `exact / t`. */
  predicate FloorOrCeiling(share: int, exact: int, t: int)
    requires t > 0
  {
    share == exact / t || (share == exact / t + 1 && exact % t > 0)
  }

  /** Each share is the floor or the ceiling of the exact proportional one. */
  lemma ApportionQuota(ws: seq<int>, remaining: int, i: nat)
    requires Weighable(ws) && Sum(ws) > 0 && i < |ws|
    ensures Sum(Basis(ws)) > 0
    ensures FloorOrCeiling(Apportion(ws, remaining)[i], ws[i] * remaining, Sum(ws))
  {
    hide Round, WholeParts, FractionSlots;
    var wholes, slots := Wholes(ws, remaining), Slots(ws, remaining);
    DivisionLeavesRemainders(ws, remaining);
    RoundAt(wholes, slots, Sum(ws), remaining, i);
    PartsAt(ws, Sum(ws), remaining, i);
  }

  lemma ApportionNonNegative(ws: seq<int>, remaining: int, i: nat)
    requires Weighable(ws) && i < |ws| && remaining >= 0
    ensures Sum(Basis(ws)) > 0
    ensures Apportion(ws, remaining)[i] >= 0
  {
    DivisionLeavesRemainders(ws, remaining);
    BasisPositive(ws);
    var wholes, slots := Wholes(ws, remaining), Slots(ws, remaining);
    var b, t := Basis(ws)[i], Sum(Basis(ws));
    assert b * remaining >= 0;
    DivisionParts(b * remaining, t);
    QuotientOrder(t, 0, 0, b * remaining / t, b * remaining % t);
    PartsAt(Basis(ws), t, remaining, i);
    RoundAt(wholes, slots, t, remaining, i);
  }

  /** A version taken out of rotation stays out while any other version has traffic. */
  lemma ApportionKeepsZero(ws: seq<int>, remaining: int, i: nat)
    requires Weighable(ws) && Sum(ws) > 0 && i < |ws| && ws[i] == 0
    ensures Sum(Basis(ws)) > 0
    ensures Apportion(ws, remaining)[i] == 0
  {
    ApportionQuota(ws, remaining, i);
    ExactQuotient(0, Sum(ws));
  }

  /** A strictly larger share never ends below a smaller one. */
  lemma ApportionMonotone(ws: seq<int>, remaining: int, i: nat, j: nat)
    requires Weighable(ws) && i < |ws| && j < |ws| && remaining >= 0
    requires ws[i] > ws[j]
    ensures Sum(Basis(ws)) > 0
    ensures Apportion(ws, remaining)[i] >= Apportion(ws, remaining)[j]
  {
    DivisionLeavesRemainders(ws, remaining);
    SumNonNegative(ws);
    LargerWeightLargerParts(ws[i], ws[j], remaining, Sum(ws));
    PartsAt(ws, Sum(ws), remaining, i);
    PartsAt(ws, Sum(ws), remaining, j);
    RoundOrder(Wholes(ws, remaining), Slots(ws, remaining), Sum(ws), remaining, i, j);
  }

  /** The units left over go to the larger remainders, and among equal remainders in order. */
  lemma LargerRemainderFirst(ws: seq<int>, remaining: int, i: nat, j: nat)
    requires Weighable(ws) && Sum(ws) > 0 && i < |ws| && j < |ws|
    requires var t := Sum(ws);
      ws[i] * remaining % t > ws[j] * remaining % t || (ws[i] * remaining % t == ws[j] * remaining % t && i < j)
    ensures Sum(Basis(ws)) > 0
    ensures Apportion(ws, remaining)[j] > ws[j] * remaining / Sum(ws)
        ==> Apportion(ws, remaining)[i] == ws[i] * remaining / Sum(ws) + 1
  {
    hide Round, Wholes, Slots, Sum, Remainders, Basis;
    BasisOf(ws);
    DivisionLeavesRemainders(ws, remaining);
    ShareParts(ws, remaining, i);
    ShareParts(ws, remaining, j);
    if Apportion(ws, remaining)[j] > ws[j] * remaining / Sum(ws) {
      LargerFractionFirst(Wholes(ws, remaining), Slots(ws, remaining), Sum(ws), remaining, i, j);
    }
  }

  lemma BasisOf(ws: seq<int>)
    ensures Sum(ws) > 0 ==> Basis(ws) == ws
  {
  }

  lemma ShareParts(ws: seq<int>, remaining: int, i: nat)
    requires Sum(Basis(ws)) > 0 && i < |ws|
    ensures var exact, t := Basis(ws)[i] * remaining, Sum(Basis(ws));
      Wholes(ws, remaining)[i] == exact / t && Slots(ws, remaining)[i] == Slot(i, exact % t)
  {
    PartsAt(Basis(ws), Sum(Basis(ws)), remaining, i);
  }

  /** With nothing to be proportional to, the division is even, the first few taking one more. */
  lemma ApportionEvenly(ws: seq<int>, remaining: int, i: nat)
    requires Weighable(ws) && Sum(ws) == 0 && i < |ws|
    ensures Sum(Basis(ws)) > 0
    ensures Apportion(ws, remaining)[i] == remaining / |ws| + if i < remaining % |ws| then 1 else 0
  {
    hide Round, Wholes, Slots, Sum, Order, Remainders, Favoured, Basis;
    DivisionLeavesRemainders(ws, remaining);
    EvenBasis(ws);
    EvenParts(ws, remaining);
    RoundAt(Wholes(ws, remaining), Slots(ws, remaining), |ws|, remaining, i);
    FirstFewFavoured(Slots(ws, remaining), remaining % |ws|, i);
  }

  lemma EvenParts(ws: seq<int>, remaining: int)
    requires Sum(Basis(ws)) == |ws| > 0 && forall k :: 0 <= k < |ws| ==> Basis(ws)[k] == 1
    ensures forall k :: 0 <= k < |ws| ==>
      Wholes(ws, remaining)[k] == remaining / |ws| && Slots(ws, remaining)[k] == Slot(k, remaining % |ws|)
    ensures remaining - Sum(Wholes(ws, remaining)) == remaining % |ws|
  {
    hide Sum, Wholes, Slots, Basis;
    forall k | 0 <= k < |ws|
      ensures Wholes(ws, remaining)[k] == remaining / |ws| && Slots(ws, remaining)[k] == Slot(k, remaining % |ws|)
    {
      ShareParts(ws, remaining, k);
    }
    SumOfEqual(Wholes(ws, remaining), remaining / |ws|);
    DivisionParts(remaining, |ws|);
  }

  lemma EvenBasis(ws: seq<int>)
    requires Sum(ws) <= 0
    ensures Sum(Basis(ws)) == |ws| && forall k :: 0 <= k < |ws| ==> Basis(ws)[k] == 1
  {
    SumOfEqual(Basis(ws), 1);
  }

  lemma FirstFewFavoured(slots: seq<Slot>, fraction: int, i: nat)
    requires i < |slots| && forall k :: 0 <= k < |slots| ==> slots[k] == Slot(k, fraction)
    ensures forall count: int :: Favoured(Order(slots), count, i) <==> i < count
  {
    hide Order;
    var order := Order(slots);
    OrderShape(slots);
    forall k | 0 <= k < |order| ensures order[k].fraction == fraction && order[k].index < |order| {
      assert order[k] in order;
    }
    InPlace(order, fraction);
    assert order[i].index == i;
  }

  lemma {:induction false} SumOfEqual(xs: seq<int>, x: int)
    requires forall k :: 0 <= k < |xs| ==> xs[k] == x
    ensures Sum(xs) == x * |xs|
  {
    if xs != [] {
      SumOfEqual(xs[..|xs| - 1], x);
    }
  }

  /** Slots of one fraction are ordered by their index, so each is in its own place. */
  lemma InPlace(order: seq<Slot>, fraction: int)
    requires Ordered(order)
    requires forall k :: 0 <= k < |order| ==> order[k].fraction == fraction && order[k].index < |order|
    ensures forall k :: 0 <= k < |order| ==> order[k].index == k
  {
    forall k | 0 <= k < |order| ensures order[k].index == k {
      AtLeastItsPlace(order, fraction, k);
      AtMostItsPlace(order, fraction, k);
    }
  }

  lemma {:induction false} AtLeastItsPlace(order: seq<Slot>, fraction: int, k: nat)
    requires Ordered(order) && k < |order| && forall m :: 0 <= m < |order| ==> order[m].fraction == fraction
    ensures order[k].index >= k
  {
    if k > 0 {
      AtLeastItsPlace(order, fraction, k - 1);
      assert Before(order[k - 1], order[k]);
    }
  }

  lemma {:induction false} AtMostItsPlace(order: seq<Slot>, fraction: int, k: nat)
    requires Ordered(order) && k < |order|
    requires forall m :: 0 <= m < |order| ==> order[m].fraction == fraction && order[m].index < |order|
    ensures order[k].index <= k
    decreases |order| - k
  {
    if k < |order| - 1 {
      AtMostItsPlace(order, fraction, k + 1);
      assert Before(order[k], order[k + 1]);
    }
  }

  lemma LargerWeightLargerParts(w: int, v: int, remaining: int, t: int)
    requires w > v && remaining >= 0 && t > 0
    ensures v * remaining / t <= w * remaining / t
    ensures v * remaining / t == w * remaining / t && v * remaining % t > 0
        ==> w * remaining % t > v * remaining % t
  {
    var a, b := v * remaining, w * remaining;
    DivisionParts(a, t);
    DivisionParts(b, t);
    assert b - a == (w - v) * remaining;
    if remaining > 0 {
      AtLeastOneTimes(remaining, w - v);
    } else {
      assert a == 0 && b == 0;
      ExactQuotient(0, t);
    }
    QuotientOrder(t, a / t, a % t, b / t, b % t);
  }

  /** Dividing exactly what the weights already add up to gives the weights back. */
  lemma ApportionIdentity(ws: seq<int>)
    requires Weighable(ws)
    ensures Sum(Basis(ws)) > 0
    ensures Apportion(ws, Sum(ws)) == ws
  {
    DivisionLeavesRemainders(ws, Sum(ws));
    SumNonNegative(ws);
    forall i | 0 <= i < |ws| ensures Apportion(ws, Sum(ws))[i] == ws[i] {
      RoundAt(Wholes(ws, Sum(ws)), Slots(ws, Sum(ws)), Sum(Basis(ws)), Sum(ws), i);
      PartsAt(Basis(ws), Sum(Basis(ws)), Sum(ws), i);
      ExactQuotient(Basis(ws)[i], Sum(Basis(ws)));
      if Sum(ws) == 0 {
        ExactQuotient(0, Sum(Basis(ws)));
      }
    }
  }

  lemma ExactQuotient(w: int, t: int)
    requires t > 0
    ensures w * t / t == w && w * t % t == 0
  {
    var q, r := w * t / t, w * t % t;
    DivisionParts(w * t, t);
    QuotientOrder(t, q, r, w, 0);
    QuotientOrder(t, w, 0, q, r);
  }
}
