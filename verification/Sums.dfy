/** Sums over the processes of a periodic grid. */
module Sums {
  import opened Vec3
  import opened Grid

  /** g(0) + ... + g(n - 1) */
  function Sum(n: nat, g: nat -> real): real {
    if n == 0 then 0.0 else Sum(n - 1, g) + g(n - 1)
  }

  lemma {:induction false} SumAdd(n: nat, f: nat -> real, g: nat -> real, h: nat -> real)
    requires forall i: nat | i < n :: h(i) == f(i) + g(i)
    ensures Sum(n, h) == Sum(n, f) + Sum(n, g)
  {
    if n > 0 { SumAdd(n - 1, f, g, h); }
  }

  lemma {:induction false} SumLe(n: nat, f: nat -> real, g: nat -> real)
    requires forall i: nat | i < n :: f(i) <= g(i)
    ensures Sum(n, f) <= Sum(n, g)
  {
    if n > 0 { SumLe(n - 1, f, g); }
  }

  lemma {:induction false} SumStep(n: nat, f: nat -> real, g: nat -> real)
    requires forall i: nat | 0 < i < n :: f(i) == g(i - 1)
    requires n > 0
    ensures Sum(n, f) == f(0) + Sum(n - 1, g)
  {
    if n > 1 { SumStep(n - 1, f, g); }
  }

  /** Summing over the left neighbours along one periodic dimension. */
  lemma SumLeft(a: Axis, f: nat -> real, g: nat -> real)
    requires forall i: nat | i < a.procs :: f(i) == g(a.Left(i))
    ensures Sum(a.procs, f) == Sum(a.procs, g)
  {
    var n := a.procs;
    if n > 0 {
      SumStep(n, f, g);
      assert f(0) == g(n - 1);
    }
  }

  /** The sum of F over all processes. */
  function Total(ax: V3<Axis>, F: Proc -> real): real {
    Sum(ax.x.procs, PlaneX(ax, F))
  }

  function PlaneX(ax: V3<Axis>, F: Proc -> real): nat -> real {
    (x: nat) => Sum(ax.y.procs, RowY(ax, F, x))
  }

  function RowY(ax: V3<Axis>, F: Proc -> real, x: nat): nat -> real {
    (y: nat) => Sum(ax.z.procs, LineZ(F, x, y))
  }

  function LineZ(F: Proc -> real, x: nat, y: nat): nat -> real {
    (z: nat) => F(V3(x, y, z))
  }

  lemma TotalAdd(ax: V3<Axis>, F: Proc -> real, G: Proc -> real, H: Proc -> real)
    requires forall c | InGrid(ax, c) :: H(c) == F(c) + G(c)
    ensures Total(ax, H) == Total(ax, F) + Total(ax, G)
  {
    forall x: nat | x < ax.x.procs
      ensures PlaneX(ax, H)(x) == PlaneX(ax, F)(x) + PlaneX(ax, G)(x)
    {
      forall y: nat | y < ax.y.procs
        ensures RowY(ax, H, x)(y) == RowY(ax, F, x)(y) + RowY(ax, G, x)(y)
      {
        forall z: nat | z < ax.z.procs ensures LineZ(H, x, y)(z) == LineZ(F, x, y)(z) + LineZ(G, x, y)(z) {
          assert InGrid(ax, V3(x, y, z));
        }
        SumAdd(ax.z.procs, LineZ(F, x, y), LineZ(G, x, y), LineZ(H, x, y));
      }
      SumAdd(ax.y.procs, RowY(ax, F, x), RowY(ax, G, x), RowY(ax, H, x));
    }
    SumAdd(ax.x.procs, PlaneX(ax, F), PlaneX(ax, G), PlaneX(ax, H));
  }

  lemma TotalLe(ax: V3<Axis>, F: Proc -> real, G: Proc -> real)
    requires forall c | InGrid(ax, c) :: F(c) <= G(c)
    ensures Total(ax, F) <= Total(ax, G)
  {
    forall x: nat | x < ax.x.procs ensures PlaneX(ax, F)(x) <= PlaneX(ax, G)(x) {
      forall y: nat | y < ax.y.procs ensures RowY(ax, F, x)(y) <= RowY(ax, G, x)(y) {
        forall z: nat | z < ax.z.procs ensures LineZ(F, x, y)(z) <= LineZ(G, x, y)(z) {
          assert InGrid(ax, V3(x, y, z));
        }
        SumLe(ax.z.procs, LineZ(F, x, y), LineZ(G, x, y));
      }
      SumLe(ax.y.procs, RowY(ax, F, x), RowY(ax, G, x));
    }
    SumLe(ax.x.procs, PlaneX(ax, F), PlaneX(ax, G));
  }

  lemma TotalEq(ax: V3<Axis>, F: Proc -> real, G: Proc -> real)
    requires forall c | InGrid(ax, c) :: F(c) == G(c)
    ensures Total(ax, F) == Total(ax, G)
  {
    TotalLe(ax, F, G);
    TotalLe(ax, G, F);
  }

  /** A summand strictly smaller somewhere gives a smaller sum. */
  lemma TotalLess(ax: V3<Axis>, F: Proc -> real, G: Proc -> real, w: Proc)
    requires forall c | InGrid(ax, c) :: F(c) <= G(c)
    requires InGrid(ax, w) && F(w) < G(w)
    ensures Total(ax, F) < Total(ax, G)
  {
    var gap := G(w) - F(w);
    var D := c => if c == w then gap else 0.0;
    var H := c => F(c) + if c == w then gap else 0.0;
    TotalAdd(ax, F, D, H);
    TotalLe(ax, H, G);
    TotalPoint(ax, D, w);
  }

  lemma {:induction false} SumPoint(n: nat, g: nat -> real, k: nat)
    requires k < n
    requires forall i: nat | i < n && i != k :: g(i) == 0.0
    ensures Sum(n, g) == g(k)
  {
    if k == n - 1 { SumZero(k, g); } else { SumPoint(n - 1, g, k); }
  }

  lemma {:induction false} SumZero(n: nat, g: nat -> real)
    requires forall i: nat | i < n :: g(i) == 0.0
    ensures Sum(n, g) == 0.0
  {
    if n > 0 { SumZero(n - 1, g); }
  }

  /** A quantity held by one process only. */
  lemma TotalPoint(ax: V3<Axis>, F: Proc -> real, w: Proc)
    requires InGrid(ax, w)
    requires forall c | InGrid(ax, c) && c != w :: F(c) == 0.0
    ensures Total(ax, F) == F(w)
  {
    forall x: nat | x < ax.x.procs ensures PlaneX(ax, F)(x) == if x == w.x then F(w) else 0.0 {
      forall y: nat | y < ax.y.procs ensures RowY(ax, F, x)(y) == if x == w.x && y == w.y then F(w) else 0.0 {
        forall z: nat | z < ax.z.procs && (x != w.x || y != w.y || z != w.z) ensures LineZ(F, x, y)(z) == 0.0 {
          assert InGrid(ax, V3(x, y, z));
        }
        if x == w.x && y == w.y {
          SumPoint(ax.z.procs, LineZ(F, x, y), w.z);
          assert V3(x, y, w.z) == w;
        } else {
          SumZero(ax.z.procs, LineZ(F, x, y));
        }
      }
      if x == w.x { SumPoint(ax.y.procs, RowY(ax, F, x), w.y); } else { SumZero(ax.y.procs, RowY(ax, F, x)); }
    }
    SumPoint(ax.x.procs, PlaneX(ax, F), w.x);
  }

  lemma {:induction false} SumEq(n: nat, f: nat -> real, g: nat -> real)
    requires forall i: nat | i < n :: f(i) == g(i)
    ensures Sum(n, f) == Sum(n, g)
  {
    if n > 0 { SumEq(n - 1, f, g); }
  }

  /** Summing what every process holds is summing what every process's left
      neighbour holds. */
  lemma TotalLeft(ax: V3<Axis>, d: nat, F: Proc -> real, G: Proc -> real)
    requires d < 3
    requires forall c | InGrid(ax, c) :: F(c) == G(LeftOf(ax, d, c))
    ensures Total(ax, F) == Total(ax, G)
  {
    forall x: nat | x < ax.x.procs
      ensures PlaneX(ax, F)(x) == PlaneX(ax, G)(if d == 0 then ax.x.Left(x) else x)
    {
      var x' := if d == 0 then ax.x.Left(x) else x;
      forall y: nat | y < ax.y.procs
        ensures RowY(ax, F, x)(y) == RowY(ax, G, x')(if d == 1 then ax.y.Left(y) else y)
      {
        var y' := if d == 1 then ax.y.Left(y) else y;
        forall z: nat | z < ax.z.procs
          ensures LineZ(F, x, y)(z) == LineZ(G, x', y')(if d == 2 then ax.z.Left(z) else z)
        {
          assert LeftOf(ax, d, V3(x, y, z)) == V3(x', y', if d == 2 then ax.z.Left(z) else z);
        }
        var f, g := LineZ(F, x, y), LineZ(G, x', y');
        if d == 2 { SumLeft(ax.z, f, g); } else { SumEq(ax.z.procs, f, g); }
      }
      var f, g := RowY(ax, F, x), RowY(ax, G, x');
      if d == 1 { SumLeft(ax.y, f, g); } else { SumEq(ax.y.procs, f, g); }
    }
    var f, g := PlaneX(ax, F), PlaneX(ax, G);
    if d == 0 { SumLeft(ax.x, f, g); } else { SumEq(ax.x.procs, f, g); }
  }

  lemma TotalRight(ax: V3<Axis>, d: nat, F: Proc -> real, G: Proc -> real)
    requires d < 3
    requires forall c | InGrid(ax, c) :: F(c) == G(RightOf(ax, d, c))
    ensures Total(ax, F) == Total(ax, G)
  {
    forall c | InGrid(ax, c) ensures G(c) == F(LeftOf(ax, d, c)) {}
    TotalLeft(ax, d, G, F);
  }
}
