/** The search of Comm::setup for the processor grid. */
module ProcGrid {
  import opened Vec3
  import opened Rows

  /** Surface of a process's box, up to a factor, for a grid of x * y * z processes. */
  function Surf(area: V3<real>, x: nat, y: nat, z: nat): real
    requires x >= 1 && y >= 1 && z >= 1
  {
    Share(area.x, x, y) + Share(area.y, x, z) + Share(area.z, y, z)
  }

  function Share(a: real, x: nat, y: nat): real
    requires x >= 1 && y >= 1
  {
    a / x as real / y as real
  }

  /** A face with edges p / x and q / y. */
  function Face(p: real, q: real, x: nat, y: nat): real
    requires x >= 1 && y >= 1
  {
    (p / x as real) * (q / y as real)
  }

  /** Surface of the box of a process. */
  function BoxSurface(prd: Vec, grid: V3<nat>): real
    requires grid.x >= 1 && grid.y >= 1 && grid.z >= 1
  {
    2.0 * (Face(prd.x, prd.y, grid.x, grid.y) + Face(prd.x, prd.z, grid.x, grid.z) + Face(prd.y, prd.z, grid.y, grid.z))
  }

  lemma SurfIs(prd: Vec, area: V3<real>, x: nat, y: nat, z: nat)
    requires x >= 1 && y >= 1 && z >= 1
    requires area.x == prd.x * prd.y && area.y == prd.x * prd.z && area.z == prd.y * prd.z
    ensures BoxSurface(prd, V3(x, y, z)) == 2.0 * Surf(area, x, y, z)
  {
    FaceIs(area.x, prd.x, prd.y, x, y);
    FaceIs(area.y, prd.x, prd.z, x, z);
    FaceIs(area.z, prd.y, prd.z, y, z);
    hide Face;
    hide Share;
  }

  lemma FaceIs(area: real, p: real, q: real, x: nat, y: nat)
    requires x >= 1 && y >= 1 && area == p * q
    ensures Share(area, x, y) == Face(p, q, x, y)
  {
    var u, v := x as real, y as real;
    var a, b := p / u, q / v;
    assert p == a * u && q == b * v;
    Quotients(p, q, a, b, u, v);
    var r := area / u;
    assert r * u == area;
    SameFactor(r, (a * b) * v, u);
    var s := r / v;
    assert s * v == r;
    SameFactor(s, a * b, v);
  }

  lemma Quotients(p: real, q: real, a: real, b: real, x: real, y: real)
    requires p == a * x && q == b * y
    ensures p * q == ((a * b) * y) * x
  {}

  lemma SameFactor(a: real, b: real, x: real)
    requires x > 0.0 && a * x == b * x
    ensures a == b
  {
    assert (a - b) * x == 0.0;
  }

  /** A way of writing n as a product. */
  predicate Factors(n: nat, x: nat, y: nat, z: nat) { x >= 1 && y >= 1 && z >= 1 && x * y * z == n }

  lemma Divides(n: nat, d: nat, q: nat)
    requires d >= 1 && n == d * q
    ensures n % d == 0 && n / d == q
  {
    var r := n / d - q;
    assert n == d * (n / d) + n % d;
    assert r * d == -(n % d);
    WholeRows(r, d);
  }

  /** What the two guards and divisions of the loops single out are the factors. */
  lemma FactorsByLoops(n: nat, x: nat, y: nat, z: nat)
    requires n >= 1
    ensures Factors(n, x, y, z) <==>
            1 <= x <= n && n % x == 0 && 1 <= y <= n / x && (n / x) % y == 0 && z == n / x / y
  {
    if Factors(n, x, y, z) {
      assert x * (y * z) == n;
      assert y * z >= y by { assert y * (z - 1) >= 0; }
      Divides(n, x, y * z);
      Divides(y * z, y, z);
      assert n >= x by { assert x * (y * z - 1) >= 0; }
    }
    if 1 <= x <= n && n % x == 0 && 1 <= y <= n / x && (n / x) % y == 0 && z == n / x / y {
      assert n == x * (n / x);
      assert n / x == y * z;
      assert x * (y * z) == x * y * z;
      assert z == 0 ==> y * z == 0;
    }
  }

  /** 1 * 1 * n beats the starting value of bestsurf. */
  lemma FirstBeats(area: V3<real>, n: nat)
    requires area.x > 0.0 && area.y > 0.0 && area.z > 0.0 && n >= 1
    ensures Surf(area, 1, 1, n) < 2.0 * (area.x + area.y + area.z)
  {
    Shrinks(area.y, n);
    Shrinks(area.z, n);
  }

  lemma Shrinks(a: real, n: nat)
    requires a > 0.0 && n >= 1
    ensures a / n as real <= a
  {
    var q := a / n as real;
    assert q * n as real == a;
    assert q * (n as real - 1.0) >= 0.0;
  }

  /** best is at most the surface of every grid with fewer than x processes along x,
      or x of them and fewer than y along y. */
  ghost predicate Seen(area: V3<real>, n: nat, x: nat, y: nat, best: real) {
    forall a: nat, b: nat, c: nat | Factors(n, a, b, c) && (a < x || (a == x && b < y)) :: best <= Surf(area, a, b, c)
  }

  /** grid, with surface best, has been chosen. */
  predicate Chosen(area: V3<real>, n: nat, grid: V3<nat>, best: real) {
    Factors(n, grid.x, grid.y, grid.z) && Surf(area, grid.x, grid.y, grid.z) == best
  }

  /** The nested loops and the check after them: the grid found multiplies to nprocs
      and has the least surface of all that do, and the error is never reported. */
  method Choose(prd: Vec, nprocs: nat, uninitialised: V3<nat>) returns (error: int, procgrid: V3<nat>)
    requires prd.x > 0.0 && prd.y > 0.0 && prd.z > 0.0 && nprocs >= 1
    ensures error == 0 && Factors(nprocs, procgrid.x, procgrid.y, procgrid.z)
    ensures forall x: nat, y: nat, z: nat | Factors(nprocs, x, y, z) :: BoxSurface(prd, procgrid) <= BoxSurface(prd, V3(x, y, z))
  {
    procgrid := uninitialised;
    var area := V3(prd.x * prd.y, prd.x * prd.z, prd.y * prd.z);
    var start := 2.0 * (area.x + area.y + area.z);
    var bestsurf := start;
    FirstBeats(area, nprocs);
    FactorsByLoops(nprocs, 1, 1, nprocs);
    hide Surf;
    hide BoxSurface;
    hide Factors;
    var ipx := 1;
    while ipx <= nprocs
      invariant 1 <= ipx <= nprocs + 1
      invariant Seen(area, nprocs, ipx, 1, bestsurf)
      invariant if ipx == 1 then bestsurf == start else Chosen(area, nprocs, procgrid, bestsurf)
    {
      if nprocs % ipx == 0 {
        var nremain := nprocs / ipx;
        Quotient(nprocs, ipx);
        var ipy := 1;
        while ipy <= nremain
          invariant 1 <= ipy <= nremain + 1
          invariant Seen(area, nprocs, ipx, ipy, bestsurf)
          invariant if ipx == 1 && ipy == 1 then bestsurf == start else Chosen(area, nprocs, procgrid, bestsurf)
        {
          ghost var before := bestsurf;
          forall z: nat ensures Factors(nprocs, ipx, ipy, z) <==> nremain % ipy == 0 && z == nremain / ipy {
            FactorsByLoops(nprocs, ipx, ipy, z);
          }
          if nremain % ipy == 0 {
            var ipz := nremain / ipy;
            FactorsPositive(nprocs, ipx, ipy, ipz);
            var surf := Surf(area, ipx, ipy, ipz);
            if surf < bestsurf {
              bestsurf := surf;
              procgrid := V3(ipx, ipy, ipz);
            }
          }
          SeenMore(area, nprocs, ipx, ipy, before, bestsurf);
          ipy := ipy + 1;
        }
        SeenRow(area, nprocs, ipx, ipy, bestsurf);
      } else {
        SeenRow(area, nprocs, ipx, 1, bestsurf);
      }
      ipx := ipx + 1;
    }
    FactorsProduct(nprocs, procgrid.x, procgrid.y, procgrid.z);
    FactorsPositive(nprocs, procgrid.x, procgrid.y, procgrid.z);
    SurfIs(prd, area, procgrid.x, procgrid.y, procgrid.z);
    forall x: nat, y: nat, z: nat | Factors(nprocs, x, y, z) ensures BoxSurface(prd, procgrid) <= BoxSurface(prd, V3(x, y, z)) {
      FactorsByLoops(nprocs, x, y, z);
      FactorsPositive(nprocs, x, y, z);
      SurfIs(prd, area, x, y, z);
      assert bestsurf <= Surf(area, x, y, z);
    }
    error := if procgrid.x * procgrid.y * procgrid.z != nprocs then 1 else 0;
  }

  lemma Quotient(n: nat, x: nat)
    requires 1 <= x <= n
    ensures n / x >= 1
  {}

  lemma FactorsPositive(n: nat, x: nat, y: nat, z: nat)
    requires Factors(n, x, y, z)
    ensures x >= 1 && y >= 1 && z >= 1
  {}

  lemma FactorsProduct(n: nat, x: nat, y: nat, z: nat)
    requires Factors(n, x, y, z)
    ensures x * y * z == n
  {}

  /** One more y: the grid x, y, n / x / y has been looked at, if there is one. */
  lemma SeenMore(area: V3<real>, n: nat, x: nat, y: nat, before: real, best: real)
    requires n >= 1 && Seen(area, n, x, y, before) && best <= before
    requires forall z: nat | Factors(n, x, y, z) :: best <= Surf(area, x, y, z)
    ensures Seen(area, n, x, y + 1, best)
  {
    hide Surf;
    forall a: nat, b: nat, c: nat | Factors(n, a, b, c) && (a < x || (a == x && b < y + 1)) ensures best <= Surf(area, a, b, c) {}
  }

  /** All y for this x. */
  lemma SeenRow(area: V3<real>, n: nat, x: nat, y: nat, best: real)
    requires n >= 1 && x >= 1 && Seen(area, n, x, y, best)
    requires n % x == 0 ==> y > n / x
    ensures Seen(area, n, x + 1, 1, best)
  {
    forall a: nat, b: nat, c: nat | Factors(n, a, b, c) && (a < x + 1 || (a == x + 1 && b < 1)) ensures best <= Surf(area, a, b, c) {
      FactorsByLoops(n, a, b, c);
    }
  }
}
