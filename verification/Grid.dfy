/** One dimension of the processor grid: box edges, number of hops, slabs and
    periodic corrections, as set up by Comm::setup. */
module Grid {
  import opened Vec3

  /** procs = procgrid[d], prd = prd[d]. */
  datatype Axis = Axis(procs: nat, prd: real) {
    predicate Valid() { procs >= 1 && prd > 0.0 }

    /** Lower edge of box b; b may lie outside 0..procs for periodic images. */
    function Edge(b: int): real
      requires Valid()
    {
      b as real * prd / procs as real
    }

    /** The cutoff measured in boxes. */
    function Reach(cut: real): real
      requires Valid()
    {
      cut * procs as real / prd
    }

    /** need[d]: how many boxes away atoms are fetched from. */
    function Need(cut: real): int
      requires Valid()
    {
      Trunc(Reach(cut) + 1.0)
    }

    /** procneigh[d][0] and procneigh[d][1] of the periodic Cartesian grid. */
    function Left(c: nat): nat
      requires c < procs
    {
      if c == 0 then procs - 1 else c - 1
    }

    function Right(c: nat): nat
      requires c < procs
    {
      if c == procs - 1 then 0 else c + 1
    }

    /** pbc_flag of the swap that sends left (even) or right (odd). */
    function LeftFlag(c: nat): int { if c == 0 then 1 else 0 }

    function RightFlag(c: nat): int { if c == procs - 1 then -1 else 0 }

    /** slablo and slabhi of hop h of process c, sending left. */
    function LeftSlabLo(c: nat, h: nat): real
      requires Valid()
    {
      Edge(c + h)
    }

    function LeftSlabHi(c: nat, h: nat, cut: real): real
      requires Valid()
    {
      Min(Edge(c) + cut, Edge(c + h + 1))
    }

    /** slablo and slabhi of hop h of process c, sending right. */
    function RightSlabLo(c: nat, h: nat, cut: real): real
      requires Valid()
    {
      Max(Edge(c + 1) - cut, Edge(c - h))
    }

    function RightSlabHi(c: nat, h: nat): real
      requires Valid()
    {
      Edge(c - h + 1)
    }
  }

  type Proc = V3<nat>

  predicate InGrid(ax: V3<Axis>, c: Proc) {
    c.x < ax.x.procs && c.y < ax.y.procs && c.z < ax.z.procs
  }

  /** procneigh[d][0] and procneigh[d][1] of process c. */
  function LeftOf(ax: V3<Axis>, d: nat, c: Proc): (l: Proc)
    requires d < 3 && InGrid(ax, c)
    ensures InGrid(ax, l) && RightOf(ax, d, l) == c
  {
    c.Set(d, ax.At(d).Left(c.At(d)))
  }

  function RightOf(ax: V3<Axis>, d: nat, c: Proc): Proc
    requires d < 3 && InGrid(ax, c)
  {
    c.Set(d, ax.At(d).Right(c.At(d)))
  }

  lemma EdgeAdd(a: Axis, b: int, n: int)
    requires a.Valid()
    ensures a.Edge(b + n) == a.Edge(b) + a.Edge(n)
  {
    var p := a.procs as real;
    assert (b + n) as real * a.prd == b as real * a.prd + n as real * a.prd;
  }

  lemma EdgePeriod(a: Axis, b: int, f: int)
    requires a.Valid()
    ensures a.Edge(b + f * a.procs) == a.Edge(b) + f as real * a.prd
  {
    EdgeAdd(a, b, f * a.procs);
    var p := a.procs as real;
    assert (f * a.procs) as real == f as real * p;
    assert f as real * p * a.prd / p == f as real * a.prd;
  }

  lemma EdgeEnds(a: Axis)
    requires a.Valid()
    ensures a.Edge(0) == 0.0 && a.Edge(a.procs) == a.prd
  {}

  lemma EdgeMono(a: Axis, b: int, c: int)
    requires a.Valid() && b < c
    ensures a.Edge(b) < a.Edge(c)
  {
    EdgeAdd(a, b, c - b);
    assert (c - b) as real * a.prd > 0.0;
  }

  lemma DivStrict(x: real, y: real, p: real)
    requires x < y && p > 0.0
    ensures x / p < y / p
  {
    var u, v := x / p, y / p;
    assert u * p == x && v * p == y;
  }

  lemma NeedCovers(a: Axis, cut: real)
    requires a.Valid() && cut >= 0.0
    ensures a.Need(cut) >= 1
    ensures a.Edge(a.Need(cut) - 1) <= cut < a.Edge(a.Need(cut))
  {
    var p := a.procs as real;
    var t := a.Reach(cut);
    assert t * a.prd == cut * p;
    assert t >= 0.0;
    var n := a.Need(cut);
    assert n as real > t;
    assert n as real * a.prd > t * a.prd == cut * p;
    DivStrict(cut * p, n as real * a.prd, p);
    assert cut * p / p == cut;
    assert (n - 1) as real <= t;
    NotFarther(a, n - 1, t, cut);
  }

  lemma NotFarther(a: Axis, n: int, t: real, cut: real)
    requires a.Valid() && n as real <= t && t * a.prd == cut * a.procs as real
    ensures a.Edge(n) <= cut
  {
    var p, d := a.procs as real, t - n as real;
    assert d * a.prd >= 0.0;
    assert n as real * a.prd <= cut * p;
    var e := a.Edge(n);
    assert e * p == n as real * a.prd;
    assert (cut - e) * p >= 0.0;
  }
}
