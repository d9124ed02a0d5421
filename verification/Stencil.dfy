/** The flattened 3-D stencil of Neighbor::setup against all pairs of atoms. */
module Stencil {
  import opened Vec3
  import opened Bins
  import opened Rows

  datatype BinGrid = BinGrid(ax: V3<BinAxis>, cut: real) {

    predicate Valid() {
      && ax.x.Valid() && ax.y.Valid() && ax.z.Valid()
      && ax.x.cut == cut && ax.y.cut == cut && ax.z.cut == cut
    }

    /** bindist(i, j, k) */
    function BinDist(o: V3<int>): real
      requires Valid()
    {
      Square(ax.x.Gap(o.x)) + Square(ax.y.Gap(o.y)) + Square(ax.z.Gap(o.z))
    }

    predicate InBlock(o: V3<int>)
      requires Valid()
    {
      -ax.x.Next() <= o.x <= ax.x.Next() && -ax.y.Next() <= o.y <= ax.y.Next() && -ax.z.Next() <= o.z <= ax.z.Next()
    }

    /** The offsets setup puts in the stencil. */
    predicate InStencil(o: V3<int>)
      requires Valid()
    {
      InBlock(o) && BinDist(o) < Square(cut)
    }

    /** A bin triple or an offset as one index, as setup and coord2bin do. */
    function Flat(o: V3<int>): int
      requires Valid()
    {
      o.z * ax.y.M() * ax.x.M() + o.y * ax.x.M() + o.x
    }

    /** Bin triple relative to mbinlo. */
    function BinOf(p: Vec): V3<int>
      requires Valid()
    {
      V3(ax.x.Bin(p.x) - ax.x.MLo(), ax.y.Bin(p.y) - ax.y.MLo(), ax.z.Bin(p.z) - ax.z.MLo())
    }

    /** coord2bin, with the 1 it adds. */
    function Coord2Bin(p: Vec): int
      requires Valid()
    {
      Flat(BinOf(p)) + 1
    }

    function MBins(): (n: nat)
      requires Valid()
      ensures n > 0
    {
      BlockFits(ax.x);
      BlockFits(ax.y);
      BlockFits(ax.z);
      Product(ax.x.M(), ax.y.M(), ax.z.M());
      ax.x.M() * ax.y.M() * ax.z.M()
    }

    predicate Owns(p: Vec) { ax.x.Owns(p.x) && ax.y.Owns(p.y) && ax.z.Owns(p.z) }

    predicate Reaches(p: Vec) { ax.x.Reaches(p.x) && ax.y.Reaches(p.y) && ax.z.Reaches(p.z) }

    /** Somewhere in the periodic box, so owned by some process. */
    predicate Home(p: Vec) { 0.0 <= p.x < ax.x.prd && 0.0 <= p.y < ax.y.prd && 0.0 <= p.z < ax.z.prd }
  }

  function Square(r: real): real { r * r }

  /** rsq of two positions. */
  function Dist2(p: Vec, q: Vec): real {
    Square(p.x - q.x) + Square(p.y - q.y) + Square(p.z - q.z)
  }

  lemma SquareIs(r: real)
    ensures Square(r) == r * r
  {}

  /** Pythagoras. */
  lemma Dist2Is(p: Vec, q: Vec)
    ensures Dist2(p, q) == (p.x - q.x) * (p.x - q.x) + (p.y - q.y) * (p.y - q.y) + (p.z - q.z) * (p.z - q.z)
  {}

  function Plus(a: V3<int>, b: V3<int>): V3<int> { V3(a.x + b.x, a.y + b.y, a.z + b.z) }

  function Minus(a: V3<int>, b: V3<int>): V3<int> { V3(a.x - b.x, a.y - b.y, a.z - b.z) }

  /** The scan of p's stencil meets the bin of q. */
  predicate Scanned(g: BinGrid, p: Vec, q: Vec)
    requires g.Valid()
  {
    g.InStencil(Minus(g.BinOf(q), g.BinOf(p)))
  }

  lemma SquareBelow(r: real, t: real)
    requires r <= t && -t <= r
    ensures Square(r) <= Square(t) && Square(-r) == Square(r)
  {
    assert (t - r) * (t + r) >= 0.0;
  }

  lemma SquareRoot(r: real, t: real)
    requires t >= 0.0 && Square(r) < Square(t)
    ensures -t < r < t
  {
    if r >= t { SquareBelow(t, r); }
    if r <= -t { SquareBelow(t, -r); SquareBelow(-r, -r); }
  }

  lemma GapSquare(a: BinAxis, x: real, y: real)
    requires a.Valid() && x >= 0.0
    ensures Square(a.Gap(a.Bin(y) - a.Bin(x))) <= Square(x - y)
  {
    hide BinAxis.Bin;
    var d := a.Bin(y) - a.Bin(x);
    GapBelow(a, x, y);
    if d == 0 {
      assert Square(a.Gap(d)) == 0.0;
      assert (x - y) * (x - y) >= 0.0;
    } else {
      hide BinAxis.Gap;
      if d > 0 { SquareBelow(a.Gap(d), y - x); SquareBelow(y - x, y - x); } else { SquareBelow(-a.Gap(d), x - y); SquareBelow(a.Gap(d), -a.Gap(d)); }
    }
  }

  /** bindist never exceeds the distance of two atoms in the two bins. */
  lemma BinDistBelow(g: BinGrid, p: Vec, q: Vec)
    requires g.Valid() && g.Home(p)
    ensures g.BinDist(Minus(g.BinOf(q), g.BinOf(p))) <= Dist2(p, q)
  {
    GapSquare(g.ax.x, p.x, q.x);
    GapSquare(g.ax.y, p.y, q.y);
    GapSquare(g.ax.z, p.z, q.z);
    hide BinAxis.Bin;
    hide BinAxis.Gap;
    hide Square;
    hide BinAxis.MLo;
  }

  lemma AxesBelow(p: Vec, q: Vec, t: real)
    requires t >= 0.0 && Dist2(p, q) < Square(t)
    ensures -t < p.x - q.x < t && -t < p.y - q.y < t && -t < p.z - q.z < t
  {
    var x, y, z := p.x - q.x, p.y - q.y, p.z - q.z;
    assert x * x >= 0.0 && y * y >= 0.0 && z * z >= 0.0;
    SquareRoot(x, t);
    SquareRoot(y, t);
    SquareRoot(z, t);
  }

  /** Whether the stencil stops short of cutneigh: a whole number of bins falls
      in the last thousandth below it. */
  predicate Short(a: BinAxis)
    requires a.Valid()
  {
    FACTOR * a.cut <= Mul(Trunc(a.InBins(a.cut)), a.Size()) < a.cut
  }

  lemma ShortReach(a: BinAxis)
    requires a.Valid()
    ensures Short(a) <==> Mul(a.Next(), a.Size()) < a.cut
  {
    var n := Trunc(a.InBins(a.cut));
    TruncBounds(a.InBins(a.cut));
    Scale(a, 0, a.cut);
    Scale(a, n + 1, a.cut);
    MulZero(a.Size());
    hide Mul;
    hide BinAxis.InBins;
    hide BinAxis.Size;
    hide Trunc;
  }

  /** Every pair closer than what the stencil extends is scanned. */
  lemma ScannedWithin(g: BinGrid, p: Vec, q: Vec, t: real)
    requires g.Valid() && g.Home(p) && 0.0 < t <= g.cut && Dist2(p, q) < Square(t)
    requires t <= Mul(g.ax.x.Next(), g.ax.x.Size())
    requires t <= Mul(g.ax.y.Next(), g.ax.y.Size())
    requires t <= Mul(g.ax.z.Next(), g.ax.z.Size())
    ensures Scanned(g, p, q)
  {
    AxesBelow(p, q, t);
    NearBins(g.ax.x, p.x, q.x);
    NearBins(g.ax.y, p.y, q.y);
    NearBins(g.ax.z, p.z, q.z);
    BinDistBelow(g, p, q);
    SquareBelow(t, g.cut);
    hide Mul;
    hide BinAxis.Bin;
    hide BinAxis.Size;
    hide BinAxis.Next;
    hide BinAxis.MLo;
    hide Square;
  }

  /** Pairs closer than FACTOR * cutneigh are always scanned. */
  lemma ScannedFactor(g: BinGrid, p: Vec, q: Vec)
    requires g.Valid() && g.Home(p) && Dist2(p, q) < Square(FACTOR * g.cut)
    ensures Scanned(g, p, q)
  {
    NextReach(g.ax.x);
    NextReach(g.ax.y);
    NextReach(g.ax.z);
    ScannedWithin(g, p, q, FACTOR * g.cut);
  }

  /** Pairs closer than cutneigh are all scanned if and only if the stencil does
      not stop short in any dimension. */
  lemma ScannedExact(g: BinGrid)
    requires g.Valid()
    ensures (forall p, q | g.Home(p) && Dist2(p, q) < Square(g.cut) :: Scanned(g, p, q)) <==>
            !Short(g.ax.x) && !Short(g.ax.y) && !Short(g.ax.z)
  {
    hide Square;
    hide Dist2;
    hide Scanned;
    hide BinGrid.Home;
    hide Short;
    hide Mul;
    hide BinAxis.Next;
    hide BinAxis.Size;
    ShortReach(g.ax.x);
    ShortReach(g.ax.y);
    ShortReach(g.ax.z);
    if !Short(g.ax.x) && !Short(g.ax.y) && !Short(g.ax.z) {
      forall p, q | g.Home(p) && Dist2(p, q) < Square(g.cut) ensures Scanned(g, p, q) {
        ScannedWithin(g, p, q, g.cut);
      }
    } else {
      var d := if Short(g.ax.x) then 0 else if Short(g.ax.y) then 1 else 2;
      var p, q := Missed(g, d);
    }
  }

  /** Two atoms closer than cutneigh that a short stencil does not bring
      together: just below the end of bin 0, and at the start of the first bin
      past the stencil. */
  lemma Missed(g: BinGrid, d: nat) returns (p: Vec, q: Vec)
    requires g.Valid() && d < 3 && Short(g.ax.At(d))
    ensures g.Home(p) && Dist2(p, q) < Square(g.cut) && !Scanned(g, p, q)
  {
    hide *;
    var a := g.ax.At(d);
    ValidAxis(g, d);
    var x, y := MissedOnAxis(a);
    p := V3(0.0, 0.0, 0.0).Set(d, x);
    q := V3(0.0, 0.0, 0.0).Set(d, y);
    SquareStrict(y - x, g.cut);
    OnAxis(d, x, y);
    HomeOnAxis(g, d, x);
    FarBins(g, p, q, d, x, y);
  }

  lemma ValidAxis(g: BinGrid, d: nat)
    requires g.Valid() && d < 3
    ensures g.ax.At(d).Valid() && g.ax.At(d).cut == g.cut
  {}

  lemma OnAxis(d: nat, x: real, y: real)
    requires d < 3
    ensures var p, q := V3(0.0, 0.0, 0.0).Set(d, x), V3(0.0, 0.0, 0.0).Set(d, y);
            p.At(d) == x && q.At(d) == y && Dist2(p, q) == Square(y - x)
  {
    assert (x - y) * (x - y) == (y - x) * (y - x);
  }

  lemma HomeOnAxis(g: BinGrid, d: nat, x: real)
    requires g.Valid() && d < 3 && 0.0 <= x < g.ax.At(d).prd
    ensures g.Home(V3(0.0, 0.0, 0.0).Set(d, x))
  {}

  lemma FarBins(g: BinGrid, p: Vec, q: Vec, d: nat, x: real, y: real)
    requires g.Valid() && d < 3 && p.At(d) == x && q.At(d) == y
    requires g.ax.At(d).Bin(y) - g.ax.At(d).Bin(x) > g.ax.At(d).Next()
    ensures !Scanned(g, p, q)
  {
    hide BinAxis.Bin;
    hide BinAxis.Next;
    hide BinAxis.MLo;
    hide BinGrid.BinDist;
  }

  lemma SquareStrict(r: real, t: real)
    requires 0.0 <= r < t
    ensures Square(r) < Square(t)
  {
    var a, b := t - r, t + r;
    assert a * b > 0.0;
    assert a * b == t * t - r * r;
  }

  lemma MissedOnAxis(a: BinAxis) returns (x: real, y: real)
    requires a.Valid() && Short(a)
    ensures 0.0 <= x < a.prd && 0.0 <= y - x < a.cut
    ensures a.Bin(y) - a.Bin(x) > a.Next()
  {
    ShortReach(a);
    SizePositive(a);
    SizePeriod(a);
    NextReach(a);
    var s, n := a.Size(), a.Next();
    var eps := a.cut - Mul(n, s);
    x := s - Min(eps, s) / 2.0;
    y := Mul(n + 1, s);
    BinCovers(a, x);
    BinCovers(a, y);
    MulAdd(n, 1, s);
    MulMono(1, a.nbin, s);
    MulMono(a.Bin(x), 1, s);
    MulMono(n + 1, a.Bin(y) + 1, s);
    MulMono(0, n + 1, s);
    MulZero(s);
    assert Mul(1, s) == s;
    hide Mul;
    hide BinAxis.Bin;
    hide BinAxis.Size;
    hide BinAxis.Next;
  }

  predicate InBox(o: V3<int>, m: V3<int>) {
    0 <= o.x < m.x && 0 <= o.y < m.y && 0 <= o.z < m.z
  }

  function Sizes(g: BinGrid): V3<int>
    requires g.Valid()
  {
    V3(g.ax.x.M(), g.ax.y.M(), g.ax.z.M())
  }

  lemma Volume(m: V3<int>)
    ensures m.z * m.y * m.x == m.x * m.y * m.z
  {
    var a := m.z * m.y;
    assert a == m.y * m.z;
    assert a * m.x == m.x * a;
    assert m.x * (m.y * m.z) == m.x * m.y * m.z;
  }

  /** A bin triple in range flattens into 0..mbins - 1; only the last triple
      flattens to mbins - 1. */
  lemma FlatRange(g: BinGrid, o: V3<int>)
    requires g.Valid() && InBox(o, Sizes(g))
    ensures 0 <= g.Flat(o) < g.MBins()
    ensures g.Flat(o) == g.MBins() - 1 <==> o == V3(g.ax.x.M() - 1, g.ax.y.M() - 1, g.ax.z.M() - 1)
  {
    var m := Sizes(g);
    hide BinAxis.M;
    FlatRows(o.z, o.y, o.x, m.x, m.y);
    RowBounds(o.z, o.y, m.z, m.y);
    RowBounds(o.z * m.y + o.y, o.x, m.z * m.y, m.x);
    Volume(m);
  }

  /** Flattening is injective on offsets that differ by less than a row. */
  lemma FlatInjective(g: BinGrid, o: V3<int>, o': V3<int>)
    requires g.Valid() && g.Flat(o) == g.Flat(o')
    requires -g.ax.x.M() < o.x - o'.x < g.ax.x.M()
    requires -g.ax.y.M() < o.y - o'.y < g.ax.y.M()
    ensures o == o'
  {
    var m := Sizes(g);
    hide BinAxis.M;
    FlatRows(o.z, o.y, o.x, m.x, m.y);
    FlatRows(o'.z, o'.y, o'.x, m.x, m.y);
    RowsDiffer(o.z * m.y + o.y, o.x, o'.z * m.y + o'.y, o'.x, m.x);
    RowsDiffer(o.z, o.y, o'.z, o'.y, m.y);
  }

  lemma FlatPlus(g: BinGrid, a: V3<int>, b: V3<int>)
    requires g.Valid()
    ensures g.Flat(Plus(a, b)) == g.Flat(a) + g.Flat(b)
  {
    var m := Sizes(g);
    hide BinAxis.M;
    FlatRows(a.z, a.y, a.x, m.x, m.y);
    FlatRows(b.z, b.y, b.x, m.x, m.y);
    FlatRows(Plus(a, b).z, Plus(a, b).y, Plus(a, b).x, m.x, m.y);
    MulAddInt(a.z, b.z, m.y);
    MulAddInt(a.z * m.y + a.y, b.z * m.y + b.y, m.x);
  }

  lemma Product(x: int, y: int, z: int)
    requires x > 0 && y > 0 && z > 0
    ensures x * y * z > 0
  {
    assert x * y > 0;
  }

  /** The stencil is no wider than the range of bins. */
  lemma BlockFits(a: BinAxis)
    requires a.Valid()
    ensures 0 < 2 * a.Next() < a.M()
  {
    NextReach(a);
    StencilInRange(a, a.lo, a.Next());
    StencilInRange(a, a.lo, -a.Next());
    hide BinAxis.Next;
    hide BinAxis.MLo;
    hide BinAxis.MHi;
    hide BinAxis.Bin;
  }

  /** Different stencil offsets have different flattened offsets. */
  lemma StencilDistinct(g: BinGrid, o: V3<int>, o': V3<int>)
    requires g.Valid() && g.InBlock(o) && g.InBlock(o') && g.Flat(o) == g.Flat(o')
    ensures o == o'
  {
    hide BinAxis.Next;
    hide BinAxis.M;
    hide BinGrid.Flat;
    BlockFits(g.ax.x);
    BlockFits(g.ax.y);
    FlatInjective(g, o, o');
  }

  lemma OwnedTarget(g: BinGrid, p: Vec, o: V3<int>)
    requires g.Valid() && g.Owns(p) && g.InBlock(o)
    ensures InBox(Plus(g.BinOf(p), o), Sizes(g))
    ensures g.Coord2Bin(p) + g.Flat(o) == g.Flat(Plus(g.BinOf(p), o)) + 1
  {
    StencilInRange(g.ax.x, p.x, o.x);
    StencilInRange(g.ax.y, p.y, o.y);
    StencilInRange(g.ax.z, p.z, o.z);
    FlatPlus(g, g.BinOf(p), o);
    hide BinAxis.Next;
    hide BinAxis.MLo;
    hide BinAxis.MHi;
    hide BinAxis.Bin;
    hide BinGrid.Flat;
  }

  /** The bins an owned atom p scans meet the bin of q exactly at the offset
      between their bins. */
  lemma MeetsBin(g: BinGrid, p: Vec, q: Vec, o: V3<int>)
    requires g.Valid() && g.Owns(p) && g.Reaches(q) && g.InBlock(o)
    ensures g.Coord2Bin(p) + g.Flat(o) == g.Coord2Bin(q) <==> o == Minus(g.BinOf(q), g.BinOf(p))
  {
    OwnedTarget(g, p, o);
    HeldInRange(g.ax.x, q.x);
    HeldInRange(g.ax.y, q.y);
    HeldInRange(g.ax.z, q.z);
    hide BinAxis.Next;
    hide BinAxis.MLo;
    hide BinAxis.MHi;
    hide BinAxis.Bin;
    hide BinGrid.Flat;
    if g.Coord2Bin(p) + g.Flat(o) == g.Coord2Bin(q) {
      FlatInjective(g, Plus(g.BinOf(p), o), g.BinOf(q));
    }
  }

  /** The bin of every atom the process holds is a valid index into bincount. */
  lemma HeldBin(g: BinGrid, q: Vec)
    requires g.Valid() && g.Reaches(q)
    ensures 0 < g.Coord2Bin(q) < g.MBins()
  {
    HeldInRange(g.ax.x, q.x);
    HeldInRange(g.ax.y, q.y);
    HeldInRange(g.ax.z, q.z);
    hide BinAxis.MLo;
    hide BinAxis.MHi;
    hide BinAxis.Bin;
    hide BinGrid.Flat;
    FlatRange(g, g.BinOf(q));
  }

  /** The highest bin an owned coordinate falls into. */
  function Top(a: BinAxis): int
    requires a.Valid()
  {
    var t := Trunc(a.InBins(a.hi));
    if Mul(t, a.Size()) == a.hi then t - 1 else t
  }

  lemma TopBin(a: BinAxis) returns (x: real)
    requires a.Valid()
    ensures a.Owns(x) && a.Bin(x) == Top(a)
    ensures forall y | a.Owns(y) :: a.Bin(y) <= Top(a)
  {
    var t, s := Trunc(a.InBins(a.hi)), a.Size();
    TruncBounds(a.InBins(a.hi));
    Scale(a, 0, a.hi);
    Scale(a, t, a.hi);
    Scale(a, t + 1, a.hi);
    SizePositive(a);
    MulZero(s);
    var b := Top(a);
    MulMono(b, t, s);
    MulMono(0, b, s);
    assert Mul(b, s) < a.hi <= Mul(b + 1, s);
    x := Max(a.lo, Mul(b, s));
    hide Mul;
    hide BinAxis.Bin;
    hide BinAxis.Size;
    hide BinAxis.InBins;
    hide Trunc;
    BinCovers(a, x);
    MulMono(a.Bin(x), b + 1, s);
    MulMono(b, a.Bin(x) + 1, s);
    forall y | a.Owns(y) ensures a.Bin(y) <= b {
      BinCovers(a, y);
      MulMono(a.Bin(y), b + 1, s);
    }
  }

  /** The stencil of some owned atom reaches mbinhi in every dimension. */
  predicate Cornered(g: BinGrid)
    requires g.Valid()
  {
    && Top(g.ax.x) + g.ax.x.Next() == g.ax.x.MHi()
    && Top(g.ax.y) + g.ax.y.Next() == g.ax.y.MHi()
    && Top(g.ax.z) + g.ax.z.Next() == g.ax.z.MHi()
    && g.InStencil(Corner(g))
  }

  function Corner(g: BinGrid): V3<int>
    requires g.Valid()
  {
    V3(g.ax.x.Next(), g.ax.y.Next(), g.ax.z.Next())
  }

  /** Every index a scan visits lies in 0..mbins - 1 if and only if no owned atom
      can reach the far corner bin: the 1 that coord2bin adds makes that corner
      index mbins. */
  lemma ScanInRange(g: BinGrid)
    requires g.Valid()
    ensures (forall p, o | g.Owns(p) && g.InStencil(o) :: 0 <= g.Coord2Bin(p) + g.Flat(o) < g.MBins()) <==> !Cornered(g)
  {
    hide BinAxis.Bin;
    hide BinAxis.Next;
    hide BinAxis.MLo;
    hide BinAxis.MHi;
    hide Top;
    hide BinGrid.Flat;
    hide BinGrid.MBins;
    hide BinGrid.BinDist;
    var x := TopBin(g.ax.x);
    var y := TopBin(g.ax.y);
    var z := TopBin(g.ax.z);
    var p := V3(x, y, z);
    NextReach(g.ax.x);
    NextReach(g.ax.y);
    NextReach(g.ax.z);
    hide Mul;
    OwnedTarget(g, p, Corner(g));
    if Cornered(g) {
      FlatRange(g, Plus(g.BinOf(p), Corner(g)));
    } else {
      forall p, o | g.Owns(p) && g.InStencil(o) ensures 0 <= g.Coord2Bin(p) + g.Flat(o) < g.MBins() {
        OwnedTarget(g, p, o);
        FlatRange(g, Plus(g.BinOf(p), o));
      }
    }
  }

  /** One bin for a period of 10, two processes, cutneigh 1: the scan of an atom of
      the first box reads bincount[mbins]. */
  lemma CorneredExample() returns (g: BinGrid)
    ensures g.Valid() && Cornered(g)
  {
    var a := BinAxis(1, 10.0, 0.0, 5.0, 1.0);
    g := BinGrid(V3(a, a, a), 1.0);
    assert a.Size() == 10.0 && a.Inv() == 0.1;
    assert a.InBins(1.0) == 0.1 && a.InBins(5.0) == 0.5 && a.InBins(5.0 + 1.0 + SMALL * 10.0) == 0.600001;
    assert a.Next() == 1 && Top(a) == 0 && a.MHi() == 1;
    assert a.Gap(1) == 0.0;
  }

  /** One bin for a period of 0.9995 and cutneigh 1: the stencil stops at 0.9995. */
  lemma ShortExample() returns (a: BinAxis)
    ensures a.Valid() && Short(a)
  {
    a := BinAxis(1, 0.9995, 0.0, 0.9995, 1.0);
    assert a.Size() == 0.9995;
    Scale(a, 1, 1.0);
    Scale(a, 2, 1.0);
    assert Trunc(a.InBins(1.0)) == 1;
  }
}
