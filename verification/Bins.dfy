/** The bin grid of Neighbor::setup: bin ranges, coord2bin, bindist, and which
    bins the stencil reaches. */
module Bins {
  import opened Vec3

  const FACTOR := 0.999
  const SMALL := 0.000001

  /** One dimension: nbin bins over the period prd, for a process whose box is
      lo..hi, with neighbour cutoff cut. */
  datatype BinAxis = BinAxis(nbin: nat, prd: real, lo: real, hi: real, cut: real) {

    predicate Valid() {
      nbin >= 1 && prd > 0.0 && 0.0 <= lo < hi <= prd && cut > 0.0
    }

    function Size(): real
      requires Valid()
    {
      prd / nbin as real
    }

    function Inv(): real
      requires Valid()
    {
      SizePositive(this);
      1.0 / Size()
    }

    /** A coordinate measured in bins. */
    function InBins(x: real): real
      requires Valid()
    {
      x * Inv()
    }

    /** Lowest and highest bin kept, and the number of bins: mbinlo, mbinhi, mbin. */
    function MLo(): int
      requires Valid()
    {
      var coord := lo - cut - SMALL * prd;
      var b := Trunc(InBins(coord));
      (if coord < 0.0 then b - 1 else b) - 1
    }

    function MHi(): int
      requires Valid()
    {
      Trunc(InBins(hi + cut + SMALL * prd)) + 1
    }

    function M(): int
      requires Valid()
    {
      MHi() - MLo() + 1
    }

    /** How many bins the stencil extends. */
    function Next(): int
      requires Valid()
    {
      var n := Trunc(InBins(cut));
      if Mul(n, Size()) < FACTOR * cut then n + 1 else n
    }

    /** Global bin of a coordinate: coord2bin before mbinlo is subtracted. */
    function Bin(x: real): int
      requires Valid()
    {
      if x >= prd then Trunc(InBins(x - prd)) + nbin
      else if x >= 0.0 then Trunc(InBins(x))
      else Trunc(InBins(x)) - 1
    }

    /** One component of bindist. */
    function Gap(i: int): real
      requires Valid()
    {
      if i > 0 then Mul(i - 1, Size())
      else if i == 0 then 0.0
      else Mul(i + 1, Size())
    }

    predicate Owns(x: real) { lo <= x < hi }

    /** A coordinate some atom of this process, own or ghost, can have. */
    predicate Reaches(x: real) { lo - cut <= x < hi + cut }
  }

  lemma SizePositive(a: BinAxis)
    requires a.Valid()
    ensures a.Size() > 0.0
  {}

  lemma SizePeriod(a: BinAxis)
    requires a.Valid()
    ensures Mul(a.nbin, a.Size()) == a.prd
  {}

  /** Comparing a coordinate measured in bins with a whole number of bins. */
  lemma Scale(a: BinAxis, b: int, x: real)
    requires a.Valid()
    ensures b as real <= a.InBins(x) <==> Mul(b, a.Size()) <= x
    ensures b as real < a.InBins(x) <==> Mul(b, a.Size()) < x
  {
    SizePositive(a);
    var s, v := a.Size(), a.Inv();
    assert v * s == 1.0;
    var u, y := a.InBins(x), b as real;
    Assoc(x, v, s);
    assert u * s == x;
    Order(y, u, s);
    Order(u, y, s);
  }

  lemma Assoc(x: real, v: real, s: real)
    requires v * s == 1.0
    ensures x * v * s == x
  {}

  lemma Order(y: real, u: real, s: real)
    requires s > 0.0
    ensures y <= u <==> y * s <= u * s
  {}

  /** Which interval a bin covers; an exact negative multiple of the bin size
      falls one bin lower. */
  lemma BinCovers(a: BinAxis, x: real)
    requires a.Valid()
    ensures var b := a.Bin(x);
            if x >= 0.0 then b >= 0 && Mul(b, a.Size()) <= x < Mul(b + 1, a.Size())
            else b < 0 && Mul(b, a.Size()) < x <= Mul(b + 1, a.Size())
  {
    var y := if x >= a.prd then x - a.prd else x;
    var t, s := Trunc(a.InBins(y)), a.Size();
    TruncBounds(a.InBins(y));
    Scale(a, 0, y);
    Scale(a, t, y);
    Scale(a, t + 1, y);
    Scale(a, t - 1, y);
    SizePeriod(a);
    MulAdd(t, a.nbin, s);
    MulAdd(t + 1, a.nbin, s);
    assert Mul(0, s) == 0.0;
    hide Mul;
    hide BinAxis.InBins;
    hide BinAxis.Size;
    hide Trunc;
  }

  /** bindist is a lower bound, component by component. */
  lemma GapBelow(a: BinAxis, x: real, y: real)
    requires a.Valid() && x >= 0.0
    ensures var d := a.Bin(y) - a.Bin(x);
            (d > 0 ==> 0.0 <= a.Gap(d) < y - x) && (d < 0 ==> 0.0 <= -a.Gap(d) <= x - y)
  {
    var s, bx, d := a.Size(), a.Bin(x), a.Bin(y) - a.Bin(x);
    SizePositive(a);
    BinCovers(a, x);
    BinCovers(a, y);
    MulAdd(bx + 1, d - 1, s);
    MulAdd(bx, d + 1, s);
    MulMono(0, d - 1, s);
    MulMono(d + 1, 0, s);
    assert Mul(0, s) == 0.0;
    hide Mul;
    hide BinAxis.Bin;
    hide BinAxis.Size;
  }

  lemma BinAt(a: BinAxis, b: nat, x: real)
    requires a.Valid() && Mul(b, a.Size()) <= x < Mul(b + 1, a.Size())
    ensures x >= 0.0 && a.Bin(x) == b
  {
    hide Mul;
    hide BinAxis.Bin;
    hide BinAxis.Size;
    SizePositive(a);
    MulZero(a.Size());
    MulMono(0, b, a.Size());
    BinCovers(a, x);
    MulMono(a.Bin(x), b + 1, a.Size());
    MulMono(b, a.Bin(x) + 1, a.Size());
  }

  /** And no larger one would be: two bins d apart hold atoms as close to that as one
      likes. */
  lemma GapTight(a: BinAxis, d: int, eps: real) returns (x: real, y: real)
    requires a.Valid() && eps > 0.0
    ensures x >= 0.0 && y >= 0.0 && a.Bin(y) - a.Bin(x) == d
    ensures if d > 0 then y - x < a.Gap(d) + eps else if d < 0 then x - y < -a.Gap(d) + eps else x == y && a.Gap(d) == 0.0
  {
    SizePositive(a);
    var s := a.Size();
    var e := Min(eps, s) / 2.0;
    var near, far := s - e, Mul(if d < 0 then -d else d, s);
    MulZero(s);
    assert Mul(1, s) == s;
    BinAt(a, 0, near);
    if d == 0 {
      x, y := near, near;
    } else {
      var n: nat := if d < 0 then -d else d;
      MulMono(n, n + 1, s);
      BinAt(a, n, far);
      MulAdd(n - 1, 1, s);
      if d > 0 {
        x, y := near, far;
      } else {
        x, y := far, near;
        MulAdd(n - 1, d + 1, s);
      }
    }
    hide Mul;
    hide BinAxis.Bin;
    hide BinAxis.Size;
  }

  /** The stencil extends at least FACTOR * cutneigh, and at most one bin more
      than the whole bins in cutneigh. */
  lemma NextReach(a: BinAxis)
    requires a.Valid()
    ensures Mul(a.Next(), a.Size()) >= FACTOR * a.cut
    ensures a.Next() >= 1
    ensures Mul(a.Next() - 1, a.Size()) <= a.cut
  {
    var n, s := Trunc(a.InBins(a.cut)), a.Size();
    SizePositive(a);
    TruncBounds(a.InBins(a.cut));
    Scale(a, 0, a.cut);
    Scale(a, n, a.cut);
    Scale(a, n + 1, a.cut);
    MulMono(0, n, s);
    MulMono(n - 1, n, s);
    assert Mul(0, s) == 0.0;
    hide Mul;
    hide BinAxis.InBins;
    hide BinAxis.Size;
    hide Trunc;
  }

  /** Atoms closer than the stencil extends are at most Next bins apart. */
  lemma NearBins(a: BinAxis, x: real, y: real)
    requires a.Valid() && x >= 0.0
    requires -Mul(a.Next(), a.Size()) < y - x < Mul(a.Next(), a.Size())
    ensures -a.Next() <= a.Bin(y) - a.Bin(x) <= a.Next()
  {
    hide Mul;
    hide BinAxis.Bin;
    hide BinAxis.Next;
    hide BinAxis.Size;
    var d, s, n := a.Bin(y) - a.Bin(x), a.Size(), a.Next();
    GapBelow(a, x, y);
    SizePositive(a);
    NextReach(a);
    if d > n {
      MulMono(n, d - 1, s);
    } else if d < -n {
      MulMono(d + 1, -n, s);
      MulAdd(n, -n, s);
      MulZero(s);
    }
  }

  lemma MulZero(s: real)
    ensures Mul(0, s) == 0.0
  {}

  /** Every atom the process holds falls strictly inside its range of bins. */
  lemma HeldInRange(a: BinAxis, y: real)
    requires a.Valid() && a.Reaches(y)
    ensures a.MLo() < a.Bin(y) < a.MHi()
  {
    hide Mul;
    hide BinAxis.Bin;
    hide BinAxis.Size;
    EdgeBins(a);
    BinCovers(a, y);
    SizePositive(a);
    MulMono(a.MLo() + 1, a.Bin(y) + 1, a.Size());
    MulMono(a.Bin(y), a.MHi(), a.Size());
  }

  lemma EdgeBins(a: BinAxis)
    requires a.Valid()
    ensures Mul(a.MLo() + 1, a.Size()) < a.lo - a.cut
    ensures a.hi + a.cut < Mul(a.MHi(), a.Size())
  {
    var e := SMALL * a.prd;
    assert e > 0.0;
    var c, h := a.lo - a.cut - e, a.hi + a.cut + e;
    var t, u := Trunc(a.InBins(c)), Trunc(a.InBins(h));
    TruncBounds(a.InBins(c));
    TruncBounds(a.InBins(h));
    Scale(a, 0, c);
    Scale(a, t, c);
    Scale(a, t - 1, c);
    Scale(a, 0, h);
    Scale(a, u + 1, h);
    MulZero(a.Size());
    hide Mul;
    hide BinAxis.InBins;
    hide BinAxis.Size;
    hide Trunc;
  }

  /** The stencil of an owned atom stays in the range of bins; the highest bin,
      MHi, can be reached. */
  lemma StencilInRange(a: BinAxis, x: real, i: int)
    requires a.Valid() && a.Owns(x) && -a.Next() <= i <= a.Next()
    ensures a.MLo() <= a.Bin(x) + i <= a.MHi()
  {
    hide Mul;
    hide BinAxis.Bin;
    hide BinAxis.Size;
    hide BinAxis.Next;
    hide BinAxis.MLo;
    hide BinAxis.MHi;
    var s, b, n := a.Size(), a.Bin(x), a.Next() - 1;
    EdgeBins(a);
    NextReach(a);
    BinCovers(a, x);
    SizePositive(a);
    MulAdd(b + 1 - n, n, s);
    MulAdd(b, n, s);
    MulMono(a.MLo() + 1, b + 1 - n, s);
    MulMono(b + n, a.MHi(), s);
  }
}
