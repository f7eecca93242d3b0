/**
 How much of each source pixel an output pixel covers when an image is resampled by area
 (resizeTo in png.js). Lengths are whole numbers in units of 1/size of a source pixel, so
 output pixel `t` spans [t*w, (t+1)*w) and source pixel `s` spans [s*size, (s+1)*size).
 */
module Coverage {
  import opened Prelude
  import opened Sums

  function Overlap(a0: int, a1: int, b0: int, b1: int): (o: int)
    ensures o >= 0
  {
    Max(0, Min(a1, b1) - Max(a0, b0))
  }

  function Clamp(x: int, lo: int, hi: int): int {
    Max(lo, Min(x, hi))
  }

  /** Overlap with a stretch of a line is how far a clamped point travels along it. */
  lemma OverlapIsTravel(a0: int, a1: int, b0: int, b1: int)
    requires a0 <= a1 && b0 <= b1
    ensures Overlap(a0, a1, b0, b1) == Clamp(b1, a0, a1) - Clamp(b0, a0, a1)
  {
  }

  /** The part of source pixel `s` under output pixel `t`, along one axis. */
  function Cover(t: int, s: int, w: int, size: int): (c: int)
    ensures c >= 0
  {
    Overlap(t * w, (t + 1) * w, s * size, (s + 1) * size)
  }

  /** What is counted: the cells of the finer grid that lie in both pixels. */
  lemma CoverCountsCells(t: nat, s: nat, w: nat, size: nat)
    ensures Cover(t, s, w, size) == |Interval(t * w, (t + 1) * w) * Interval(s * size, (s + 1) * size)|
  {
    TimesMonotone(w, t, t + 1);
    TimesMonotone(size, s, s + 1);
    var lo, hi := Max(t * w, s * size), Min((t + 1) * w, (s + 1) * size);
    assert Interval(t * w, (t + 1) * w) * Interval(s * size, (s + 1) * size) == Interval(lo, hi);
  }

  function Covers(t: int, w: int, size: int): int -> int {
    s => Cover(t, s, w, size)
  }

  function CoveredBy(s: int, w: int, size: int): int -> int {
    t => Cover(t, s, w, size)
  }

  lemma {:induction false} CoverUpTo(t: nat, n: nat, w: nat, size: nat)
    ensures SumTo(n, Covers(t, w, size)) == Clamp(n * size, t * w, (t + 1) * w) - t * w
  {
    TimesMonotone(w, 0, t);
    TimesMonotone(w, t, t + 1);
    if n > 0 {
      CoverUpTo(t, n - 1, w, size);
      TimesMonotone(size, n - 1, n);
      OverlapIsTravel(t * w, (t + 1) * w, (n - 1) * size, n * size);
    }
  }

  /** Along an axis, an output pixel covers w/size of a source pixel in all. */
  lemma OutputCovers(t: nat, w: nat, size: nat)
    requires t < size
    ensures SumTo(w, Covers(t, w, size)) == w
  {
    CoverUpTo(t, w, w, size);
    TimesMonotone(w, t, t + 1);
    TimesMonotone(w, t + 1, size);
  }

  /** And a source pixel is covered exactly once. */
  lemma SourceIsCovered(s: nat, w: nat, size: nat)
    requires s < w
    ensures SumTo(size, CoveredBy(s, w, size)) == size
  {
    OutputCovers(s, size, w);
    SumCong(size, CoveredBy(s, w, size), Covers(s, size, w));
  }

  /** The floor of where an output pixel starts. */
  function StartOf(t: nat, w: nat, size: nat): (s: nat)
    requires t < size
    ensures s <= w
  {
    TimesMonotone(w, 0, t);
    TimesMonotone(w, t, size);
    DivisionParts(t * w, size);
    QuotientOrder(size, t * w / size, t * w % size, w, 0);
    QuotientOrder(size, 0, 0, t * w / size, t * w % size);
    t * w / size
  }

  /** The ceiling of where it ends. */
  function EndOf(t: nat, w: nat, size: nat): (s: nat)
    requires t < size
  {
    var end := (t + 1) * w + size - 1;
    TimesMonotone(w, 0, t + 1);
    DivisionParts(end, size);
    QuotientOrder(size, 0, 0, end / size, end % size);
    end / size
  }

  /** Source pixels before an output pixel's start, or from its end on, are not covered. */
  lemma OutsideIsUncovered(t: nat, s: nat, w: nat, size: nat)
    requires t < size
    requires s < StartOf(t, w, size) || s >= EndOf(t, w, size)
    ensures Cover(t, s, w, size) == 0
  {
    TimesMonotone(w, 0, t);
    TimesMonotone(w, t, t + 1);
    if s < StartOf(t, w, size) {
      DivisionParts(t * w, size);
      TimesMonotone(size, s + 1, t * w / size);
    } else {
      var end := (t + 1) * w + size - 1;
      DivisionParts(end, size);
      TimesMonotone(size, end / size, s);
    }
  }

  // -------------------------------------------------------------- two dimensions

  /** A channel of an image: its value at row `sy`, column `sx`. */
  type Channel = (int, int) -> int

  function Weight(ty: int, tx: int, w: int, h: int, size: int): (int, int) -> int {
    (sy, sx) => Cover(ty, sy, h, size) * Cover(tx, sx, w, size)
  }

  function Weighted(img: Channel, ty: int, tx: int, w: int, h: int, size: int): (int, int) -> int {
    (sy, sx) => img(sy, sx) * (Cover(ty, sy, h, size) * Cover(tx, sx, w, size))
  }

  function Mass(img: Channel, ty: int, tx: int, w: nat, h: nat, size: int): int {
    SumOver(h, w, Weighted(img, ty, tx, w, h, size))
  }

  function TotalWeight(ty: int, tx: int, w: nat, h: nat, size: int): int {
    SumOver(h, w, Weight(ty, tx, w, h, size))
  }

  /** The weights of an output pixel total the area it covers, (w/size) * (h/size). */
  lemma WeightsTotalArea(ty: nat, tx: nat, w: nat, h: nat, size: nat)
    requires ty < size && tx < size
    ensures TotalWeight(ty, tx, w, h, size) == w * h
  {
    hide Cover;
    OutputCovers(tx, w, size);
    OutputCovers(ty, h, size);
    SumOfProducts(h, w, Covers(ty, h, size), Covers(tx, w, size), Weight(ty, tx, w, h, size));
  }

  function WeightBySource(sy: int, sx: int, w: int, h: int, size: int): (int, int) -> int {
    (ty, tx) => Cover(ty, sy, h, size) * Cover(tx, sx, w, size)
  }

  /** Over all the outputs, each source pixel is used exactly once. */
  lemma SourceWeightsTotalOne(sy: nat, sx: nat, w: nat, h: nat, size: nat)
    requires sy < h && sx < w
    ensures SumOver(size, size, WeightBySource(sy, sx, w, h, size)) == size * size
  {
    hide Cover;
    SourceIsCovered(sx, w, size);
    SourceIsCovered(sy, h, size);
    SumOfProducts(size, size, CoveredBy(sy, h, size), CoveredBy(sx, w, size), WeightBySource(sy, sx, w, h, size));
  }

  // ---------------------------------------------------------------- conservation

  function SpreadTerms(a: int -> int, w: int, size: int): (int, int) -> int {
    (t, s) => a(s) * Cover(t, s, w, size)
  }

  /** Along one axis, what the outputs receive is what the sources held. */
  lemma SpreadConserves(a: int -> int, w: nat, size: nat)
    ensures SumOver(size, w, SpreadTerms(a, w, size)) == size * SumTo(w, a)
  {
    var f := SpreadTerms(a, w, size);
    SumSwap(size, w, f);
    forall s | 0 <= s < w ensures RowSums(size, Flip(f))(s) == size * a(s) {
      SumScale(size, a(s), CoveredBy(s, w, size), At(Flip(f), s));
      SourceIsCovered(s, w, size);
    }
    SumScale(w, size, a, RowSums(size, Flip(f)));
  }

  function RowMass(img: Channel, sy: int, w: nat, size: int): int -> int {
    tx => SumTo(w, At(SpreadTerms(At(img, sy), w, size), tx))
  }

  function RowMassTotals(img: Channel, w: nat, size: nat): int -> int {
    sy => SumTo(size, RowMass(img, sy, w, size))
  }

  lemma RowMassTotal(img: Channel, sy: nat, w: nat, size: nat)
    ensures SumTo(size, RowMass(img, sy, w, size)) == size * SumTo(w, At(img, sy))
  {
    SpreadConserves(At(img, sy), w, size);
    SumCong(size, RowMass(img, sy, w, size), RowSums(w, SpreadTerms(At(img, sy), w, size)));
  }

  function MassTerms(img: Channel, ty: int, w: nat, h: nat, size: int): (int, int) -> int {
    (tx, sy) => Cover(ty, sy, h, size) * RowMass(img, sy, w, size)(tx)
  }

  lemma MassOfRow(img: Channel, ty: int, tx: int, sy: int, w: nat, h: nat, size: int)
    ensures SumTo(w, At(Weighted(img, ty, tx, w, h, size), sy)) == Cover(ty, sy, h, size) * RowMass(img, sy, w, size)(tx)
  {
    hide Cover;
    var f := At(Weighted(img, ty, tx, w, h, size), sy);
    var g := At(SpreadTerms(At(img, sy), w, size), tx);
    forall sx | 0 <= sx < w ensures f(sx) == Cover(ty, sy, h, size) * g(sx) {
    }
    SumScale(w, Cover(ty, sy, h, size), g, f);
  }

  lemma MassByRows(img: Channel, ty: int, tx: int, w: nat, h: nat, size: int)
    ensures Mass(img, ty, tx, w, h, size) == SumTo(h, At(MassTerms(img, ty, w, h, size), tx))
  {
    hide Cover, Weighted, RowMass;
    var f := Weighted(img, ty, tx, w, h, size);
    forall sy | 0 <= sy < h ensures RowSums(w, f)(sy) == At(MassTerms(img, ty, w, h, size), tx)(sy) {
      MassOfRow(img, ty, tx, sy, w, h, size);
    }
    SumCong(h, RowSums(w, f), At(MassTerms(img, ty, w, h, size), tx));
  }

  function Masses(img: Channel, w: nat, h: nat, size: nat): (int, int) -> int {
    (ty, tx) => Mass(img, ty, tx, w, h, size)
  }

  lemma RowOfMasses(img: Channel, ty: nat, w: nat, h: nat, size: nat)
    ensures SumTo(size, At(Masses(img, w, h, size), ty))
         == SumTo(h, At(SpreadTerms(RowMassTotals(img, w, size), h, size), ty))
  {
    hide Cover, Mass, RowMass;
    var f := MassTerms(img, ty, w, h, size);
    forall tx | 0 <= tx < size ensures At(Masses(img, w, h, size), ty)(tx) == RowSums(h, f)(tx) {
      MassByRows(img, ty, tx, w, h, size);
    }
    SumCong(size, At(Masses(img, w, h, size), ty), RowSums(h, f));
    SumSwap(size, h, f);
    TermsByRow(img, ty, w, h, size);
  }

  lemma TermsByRow(img: Channel, ty: nat, w: nat, h: nat, size: nat)
    ensures SumTo(h, RowSums(size, Flip(MassTerms(img, ty, w, h, size))))
         == SumTo(h, At(SpreadTerms(RowMassTotals(img, w, size), h, size), ty))
  {
    hide Cover, RowMass;
    var f := Flip(MassTerms(img, ty, w, h, size));
    var g := At(SpreadTerms(RowMassTotals(img, w, size), h, size), ty);
    forall sy | 0 <= sy < h ensures RowSums(size, f)(sy) == g(sy) {
      SumScale(size, Cover(ty, sy, h, size), RowMass(img, sy, w, size), At(f, sy));
    }
    SumCong(h, RowSums(size, f), g);
  }

  lemma AllMasses(img: Channel, w: nat, h: nat, size: nat)
    ensures SumOver(size, size, Masses(img, w, h, size)) == size * SumTo(h, RowMassTotals(img, w, size))
  {
    hide Cover, Mass, RowMass, RowMassTotals;
    var b := RowMassTotals(img, w, size);
    forall ty | 0 <= ty < size
      ensures RowSums(size, Masses(img, w, h, size))(ty) == RowSums(h, SpreadTerms(b, h, size))(ty)
    {
      RowOfMasses(img, ty, w, h, size);
    }
    SumCong(size, RowSums(size, Masses(img, w, h, size)), RowSums(h, SpreadTerms(b, h, size)));
    SpreadConserves(b, h, size);
  }

  lemma AllRows(img: Channel, w: nat, h: nat, size: nat)
    ensures SumTo(h, RowMassTotals(img, w, size)) == size * SumOver(h, w, img)
  {
    hide Cover, RowMass;
    var b := RowMassTotals(img, w, size);
    forall sy | 0 <= sy < h ensures b(sy) == size * RowSums(w, img)(sy) {
      RowMassTotal(img, sy, w, size);
    }
    SumScale(h, size, RowSums(w, img), b);
  }

  /**
   Resampling conserves what each channel holds: the masses of all the outputs total size
   squared times the total of the source, since lengths are counted in 1/size.
   */
  lemma MassIsConserved(img: Channel, w: nat, h: nat, size: nat)
    ensures SumOver(size, size, Masses(img, w, h, size)) == size * (size * SumOver(h, w, img))
  {
    hide *;
    AllMasses(img, w, h, size);
    AllRows(img, w, h, size);
  }
}
