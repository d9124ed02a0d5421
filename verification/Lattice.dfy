/** The fcc lattice: every process walks the half-cells near its box and creates the atoms
    that lie in it. */
module Lattice {
  import opened Vec3
  import opened Grid
  import opened Sums
  import opened Storage
  import Random

  /** Half-cell coordinates. */
  datatype Site = Site(i: int, j: int, k: int)

  /** Subbox edge of the walk. */
  const SUB := 8

  /** Lexicographic by subbox (z slowest), then within the subbox. */
  predicate Before(a: Site, b: Site) {
    || a.k / SUB < b.k / SUB
    || (a.k / SUB == b.k / SUB && (a.j / SUB < b.j / SUB
    || (a.j / SUB == b.j / SUB && (a.i / SUB < b.i / SUB
    || (a.i / SUB == b.i / SUB && (a.k % SUB < b.k % SUB
    || (a.k % SUB == b.k % SUB && (a.j % SUB < b.j % SUB
    || (a.j % SUB == b.j % SUB && a.i % SUB < b.i % SUB)))))))))
  }

  /** The six counters: position in the subbox, and of the subbox. */
  datatype Odometer = Odometer(sx: nat, sy: nat, sz: nat, ox: nat, oy: nat, oz: nat) {
    function At(): Site { Site(ox * SUB + sx, oy * SUB + sy, oz * SUB + sz) }

    /** The five carries, in the order of the program. */
    function Next(ihi: int, jhi: int): Odometer {
      var a := this.(sx := sx + 1);
      var b := if a.sx == SUB then a.(sx := 0, sy := a.sy + 1) else a;
      var c := if b.sy == SUB then b.(sy := 0, sz := b.sz + 1) else b;
      var d := if c.sz == SUB then c.(sz := 0, ox := c.ox + 1) else c;
      var e := if d.ox * SUB > ihi then d.(ox := 0, oy := d.oy + 1) else d;
      if e.oy * SUB > jhi then e.(oy := 0, oz := e.oz + 1) else e
    }

    predicate Valid(ihi: int, jhi: int) {
      sx < SUB && sy < SUB && sz < SUB && ox * SUB <= ihi && oy * SUB <= jhi
    }
  }

  /** The padded range that the walk covers. */
  predicate Padded(s: Site, ihi: int, jhi: int, khi: int) {
    && 0 <= s.i && s.i / SUB <= ihi / SUB
    && 0 <= s.j && s.j / SUB <= jhi / SUB
    && 0 <= s.k && s.k / SUB <= khi / SUB
  }

  lemma AtDigits(o: Odometer, ihi: int, jhi: int)
    requires o.Valid(ihi, jhi)
    ensures var s := o.At();
            s.i / SUB == o.ox && s.j / SUB == o.oy && s.k / SUB == o.oz && s.i % SUB == o.sx && s.j % SUB == o.sy && s.k % SUB == o.sz
  {}

  /** The next site is the next one in that order: nothing is skipped. */
  lemma NextIsNext(o: Odometer, ihi: int, jhi: int, khi: int, s: Site)
    requires o.Valid(ihi, jhi) && ihi >= 0 && jhi >= 0 && Padded(s, ihi, jhi, khi)
    ensures o.Next(ihi, jhi).Valid(ihi, jhi)
    ensures Before(s, o.Next(ihi, jhi).At()) <==> Before(s, o.At()) || s == o.At()
  {
    AtDigits(o, ihi, jhi);
    AtDigits(o.Next(ihi, jhi), ihi, jhi);
  }

  /** Loop bounds of one dimension, in half-cells of edge h of which there are n. */
  function FirstOf(lo: real, h: real): int
    requires h > 0.0
  {
    var first := Trunc(lo / h - 1.0);
    if first > 0 then first else 0
  }

  function LastOf(hi: real, h: real, n: nat): int
    requires h > 0.0
  {
    var last := Trunc(hi / h + 1.0);
    if last < n - 1 then last else n - 1
  }

  /** nx, ny, nz unit cells of edge alat, and the box of one process. */
  datatype Job = Job(n: V3<nat>, alat: real, lo: Vec, hi: Vec) {
    /** Site numbers are C ints. */
    predicate Valid() {
      && n.x >= 1 && n.y >= 1 && n.z >= 1 && alat > 0.0 && 8 * (n.x * n.y * n.z) <= 0x8000_0000
      && forall d: nat | d < 3 :: 0.0 <= lo.At(d) < hi.At(d)
    }

    function Half(): real { 0.5 * alat }

    /** ilo, jlo, klo */
    function First(d: nat): int
      requires Valid() && d < 3
    {
      FirstOf(lo.At(d), Half())
    }

    /** ihi, jhi, khi */
    function Last(d: nat): int
      requires Valid() && d < 3
    {
      LastOf(hi.At(d), Half(), 2 * n.At(d))
    }

    function Position(s: Site): Vec { V3(Mul(s.i, Half()), Mul(s.j, Half()), Mul(s.k, Half())) }

    predicate InBox(s: Site) {
      var x := Position(s);
      lo.x <= x.x < hi.x && lo.y <= x.y < hi.y && lo.z <= x.z < hi.z
    }

    /** The tests of the walk. */
    predicate Selected(s: Site)
      requires Valid()
    {
      && (s.i + s.j + s.k) % 2 == 0
      && First(0) <= s.i <= Last(0) && First(1) <= s.j <= Last(1) && First(2) <= s.k <= Last(2)
      && InBox(s)
    }

    /** n = k * (2 * ny) * (2 * nx) + j * (2 * nx) + i + 1 */
    function Number(s: Site): int { s.k * (2 * n.y) * (2 * n.x) + s.j * (2 * n.x) + s.i + 1 }
  }

  /** The fcc sites of the whole crystal: the half-cells of even parity. */
  predicate OfCrystal(n: V3<nat>, s: Site) {
    (s.i + s.j + s.k) % 2 == 0 && 0 <= s.i < 2 * n.x && 0 <= s.j < 2 * n.y && 0 <= s.k < 2 * n.z
  }

  lemma MulLe(a: int, b: int, m: int)
    requires a <= b && m >= 0
    ensures a * m <= b * m
  {
    assert (b - a) * m >= 0;
  }

  lemma ScaleCompare(a: real, b: real, h: real)
    requires h > 0.0
    ensures a * h <= b * h <==> a <= b
  {
    if a <= b { assert (b - a) * h >= 0.0; } else { assert (a - b) * h > 0.0; }
  }

  lemma FirstKeeps(lo: real, h: real, i: int)
    requires h > 0.0 && 0 <= i && lo <= Mul(i, h)
    ensures FirstOf(lo, h) <= i
  {
    var u := lo / h;
    assert u * h == lo;
    ScaleCompare(u, i as real, h);
    TruncBounds(u - 1.0);
    hide Trunc;
  }

  lemma LastKeeps(hi: real, h: real, n: nat, i: int)
    requires h > 0.0 && 0 <= i < n && Mul(i, h) < hi
    ensures i <= LastOf(hi, h, n)
  {
    var v := hi / h;
    assert v * h == hi;
    ScaleCompare(v, i as real, h);
    TruncBounds(v + 1.0);
    hide Trunc;
  }

  /** The loop bounds of one dimension shut out nothing that lies in the box. */
  lemma BoundsKeep(lo: real, hi: real, h: real, n: nat, i: int)
    requires h > 0.0 && 0 <= i < n && lo <= Mul(i, h) < hi
    ensures FirstOf(lo, h) <= i <= LastOf(hi, h, n)
  {
    FirstKeeps(lo, h, i);
    LastKeeps(hi, h, n, i);
    hide *;
  }

  lemma LastAtLeastZero(lo: real, hi: real, h: real, n: nat)
    requires h > 0.0 && hi > 0.0 && n > 0
    ensures 0 <= FirstOf(lo, h) && 0 <= LastOf(hi, h, n) < n
  {
    assert hi / h > 0.0 by { assert (hi / h) * h == hi; }
    TruncBounds(hi / h + 1.0);
  }

  lemma RangesOk(job: Job)
    requires job.Valid()
    ensures 0 <= job.First(0) && 0 <= job.Last(0) < 2 * job.n.x
    ensures 0 <= job.First(1) && 0 <= job.Last(1) < 2 * job.n.y
    ensures 0 <= job.First(2) && 0 <= job.Last(2) < 2 * job.n.z
  {
    hide FirstOf;
    hide LastOf;
    assert 0.0 < job.hi.At(0) && 0.0 < job.hi.At(1) && 0.0 < job.hi.At(2);
    LastAtLeastZero(job.lo.x, job.hi.x, job.Half(), 2 * job.n.x);
    LastAtLeastZero(job.lo.y, job.hi.y, job.Half(), 2 * job.n.y);
    LastAtLeastZero(job.lo.z, job.hi.z, job.Half(), 2 * job.n.z);
  }

  /** So the tests pick the crystal's sites in the box. */
  lemma SelectedExactly(job: Job, s: Site)
    requires job.Valid()
    ensures job.Selected(s) <==> OfCrystal(job.n, s) && job.InBox(s)
  {
    RangesOk(job);
    hide Mul;
    hide FirstOf;
    hide LastOf;
    if OfCrystal(job.n, s) && job.InBox(s) {
      BoundsKeep(job.lo.x, job.hi.x, job.Half(), 2 * job.n.x, s.i);
      BoundsKeep(job.lo.y, job.hi.y, job.Half(), 2 * job.n.y, s.j);
      BoundsKeep(job.lo.z, job.hi.z, job.Half(), 2 * job.n.z, s.k);
    }
  }

  /** a * m + b takes each value once. */
  lemma DigitsUnique(a: int, b: int, c: int, d: int, m: int)
    requires 0 <= b < m && 0 <= d < m && a * m + b == c * m + d
    ensures a == c && b == d
  {
    if a < c {
      MulLe(a + 1, c, m);
      MulNext(a, m);
      assert false;
    }
    if c < a {
      MulLe(c + 1, a, m);
      MulNext(c, m);
      assert false;
    }
  }

  lemma MulNext(a: int, m: int)
    ensures (a + 1) * m == a * m + m
  {}

  lemma DigitsBelow(a: int, b: int, m: int, n: int)
    requires 0 <= a < n && 0 <= b < m
    ensures 0 <= a * m + b < n * m
  {
    MulLe(0, a, m);
    MulLe(a + 1, n, m);
    MulNext(a, m);
  }

  lemma NumberDigits(job: Job, s: Site)
    ensures job.Number(s) == (s.k * (2 * job.n.y) + s.j) * (2 * job.n.x) + s.i + 1
  {}

  lemma LastDigits(i: int, j: int, k: int, a: int, b: int, c: int)
    requires 0 <= i < a && 0 <= j < b && 0 <= k < c
    ensures 0 <= (k * b + j) * a + i < (c * b) * a
    ensures (k * b + j) * a + i == (c * b) * a - 1 ==> i == a - 1 && j == b - 1 && k == c - 1
  {
    var row, rows := k * b + j, c * b;
    DigitsBelow(k, j, b, c);
    DigitsBelow(row, i, a, rows);
    if row * a + i == rows * a - 1 {
      MulNext(rows - 1, a);
      DigitsUnique(row, i, rows - 1, a - 1, a);
      MulNext(c - 1, b);
      DigitsUnique(k, j, c - 1, b - 1, b);
    }
  }

  /** The last half-cell has odd parity, so no site of the crystal has its number. */
  lemma NumberRange(n: V3<nat>, job: Job, s: Site)
    requires job.n == n && OfCrystal(n, s)
    ensures 0 < job.Number(s) < 8 * (n.x * n.y * n.z)
  {
    NumberDigits(job, s);
    CellCount(n.x, n.y, n.z);
    LastDigits(s.i, s.j, s.k, 2 * n.x, 2 * n.y, 2 * n.z);
    hide Job.Number;
  }

  /** All site numbers are C ints exactly if there are at most 2^31 half-cells. */
  lemma NumbersFit(job: Job)
    requires job.n.x >= 1 && job.n.y >= 1 && job.n.z >= 1
    ensures (forall s | OfCrystal(job.n, s) :: Random.Fits(job.Number(s))) <==> 8 * (job.n.x * job.n.y * job.n.z) <= 0x8000_0000
  {
    var a, b, c := 2 * job.n.x, 2 * job.n.y, 2 * job.n.z;
    forall s | OfCrystal(job.n, s) ensures 0 < job.Number(s) < 8 * (job.n.x * job.n.y * job.n.z) { NumberRange(job.n, job, s); }
    var last := Site(a - 2, b - 1, c - 1);
    assert OfCrystal(job.n, last);
    NumberDigits(job, last);
    MulNext(c - 1, b);
    MulNext(c * b - 1, a);
    CellCount(job.n.x, job.n.y, job.n.z);
    assert (c - 1) * b + (b - 1) == c * b - 1;
    assert job.Number(last) == 8 * (job.n.x * job.n.y * job.n.z) - 1;
  }

  /** Site numbers are seeds the generator keeps apart: distinct, and in 1 .. IM. */
  lemma NumbersDistinct(job: Job, s: Site, t: Site)
    requires job.Valid() && OfCrystal(job.n, s) && OfCrystal(job.n, t)
    ensures 0 < job.Number(s) <= Random.IM && (job.Number(s) == job.Number(t) ==> s == t)
  {
    NumberRange(job.n, job, s);
    var a, b := 2 * job.n.x, 2 * job.n.y;
    NumberDigits(job, s);
    NumberDigits(job, t);
    hide Job.Number;
    if job.Number(s) == job.Number(t) {
      DigitsUnique(s.k * b + s.j, s.i, t.k * b + t.j, t.i, a);
      DigitsUnique(s.k, s.j, t.k, t.j, b);
    }
  }

  lemma CellCount(x: nat, y: nat, z: nat)
    ensures ((2 * z) * (2 * y)) * (2 * x) == 8 * (x * y * z)
  {}

  datatype Created = Created(x: Vec, v: Vec)

  /** The atom of a site: its velocity is drawn from the site's own number. */
  function AtomOf(job: Job, s: Site): Created {
    var n := job.Number(s);
    Created(job.Position(s), V3(Random.Scaled(Random.After(6, n)), Random.Scaled(Random.After(12, n)), Random.Scaled(Random.After(18, n))))
  }

  /** Each component is the scaled state six steps after the one before, the first counted
      from the seed. */
  ghost predicate DrawnFrom(seed: int, v: Vec) {
    && v.x * 2147483647.0 == ((Random.Power(6) * seed) % 2147483647) as real
    && v.y * 2147483647.0 == ((Random.Power(12) * seed) % 2147483647) as real
    && v.z * 2147483647.0 == ((Random.Power(18) * seed) % 2147483647) as real
  }

  /** a is the atom of site s: half a lattice constant per half-cell from the origin, its
      velocity drawn from the number of the half-cell, counted from 1, x fastest. */
  ghost predicate RightAtom(job: Job, s: Site, a: Created) {
    && a.x.x == s.i as real * (0.5 * job.alat) && a.x.y == s.j as real * (0.5 * job.alat) && a.x.z == s.k as real * (0.5 * job.alat)
    && DrawnFrom(s.k * (2 * job.n.y) * (2 * job.n.x) + s.j * (2 * job.n.x) + s.i + 1, a.v)
  }

  lemma RightAtomIs(job: Job, s: Site, a: Created)
    ensures RightAtom(job, s, a) <==> a == AtomOf(job, s)
  {
    DrawnFromIs(job.Number(s), a.v);
    PositionIs(job, s);
    hide DrawnFrom;
    hide Random.After;
    hide Random.Scaled;
    hide Job.Position;
    SameVec(a.x, job.Position(s));
  }

  lemma PositionIs(job: Job, s: Site)
    ensures var p := job.Position(s);
            p.x == s.i as real * (0.5 * job.alat) && p.y == s.j as real * (0.5 * job.alat) && p.z == s.k as real * (0.5 * job.alat)
  {}

  lemma SameVec(p: Vec, q: Vec)
    ensures p == q <==> p.x == q.x && p.y == q.y && p.z == q.z
  {}

  lemma DrawnFromIs(seed: int, v: Vec)
    ensures DrawnFrom(seed, v) <==> v == V3(Random.Scaled(Random.After(6, seed)), Random.Scaled(Random.After(12, seed)), Random.Scaled(Random.After(18, seed)))
  {
    DrawnIs(6, seed);
    DrawnIs(12, seed);
    DrawnIs(18, seed);
    hide Random.Power;
    hide Random.After;
    hide Random.Scaled;
    SameScaled(v.x, Random.Scaled(Random.After(6, seed)));
    SameScaled(v.y, Random.Scaled(Random.After(12, seed)));
    SameScaled(v.z, Random.Scaled(Random.After(18, seed)));
  }

  lemma DrawnIs(n: nat, seed: int)
    requires n > 0
    ensures Random.Scaled(Random.After(n, seed)) * 2147483647.0 == ((Random.Power(n) * seed) % 2147483647) as real
  {
    Random.AfterPower(n, seed);
    Random.ScaledIs(Random.After(n, seed));
  }

  lemma SameScaled(a: real, b: real)
    ensures a * 2147483647.0 == b * 2147483647.0 <==> a == b
  {}

  /** Atoms of different sites differ in every component of the velocity. */
  lemma VelocitiesDiffer(job: Job, s: Site, t: Site)
    requires job.Valid() && OfCrystal(job.n, s) && OfCrystal(job.n, t) && s != t
    ensures var u, v := AtomOf(job, s).v, AtomOf(job, t).v; u.x != v.x && u.y != v.y && u.z != v.z
  {
    NumbersDistinct(job, s, t);
    NumbersDistinct(job, t, s);
    hide Job.Valid;
    hide Job.Number;
    hide OfCrystal;
    hide Job.Position;
    hide Random.After;
    hide Random.Scaled;
    DrawsDiffer(6, job.Number(s), job.Number(t));
    DrawsDiffer(12, job.Number(s), job.Number(t));
    DrawsDiffer(18, job.Number(s), job.Number(t));
  }

  lemma DrawsDiffer(n: nat, a: int, b: int)
    requires 0 < a <= Random.IM && 0 < b <= Random.IM && a != b
    ensures Random.Scaled(Random.After(n, a)) != Random.Scaled(Random.After(n, b))
  {
    hide Random.After;
    Random.StaysApart(n, a, b);
    Random.ScaledApart(Random.After(n, a), Random.After(n, b));
  }

  /** Five draws to exercise the generator, and one to use. */
  method DrawSixth(n: int) returns (next: int, ans: real)
    requires Random.Fits(n)
    ensures next == Random.After(6, n) && Random.Fits(next) && ans == Random.Scaled(next)
  {
    next := n;
    for m := 0 to 5
      invariant Random.Fits(next) && Random.After(6, n) == Random.After(6 - m, next)
    {
      var unused;
      next, unused := Random.Draw(next);
    }
    next, ans := Random.Draw(next);
  }

  lemma {:induction false} AfterAdd(a: nat, b: nat, n: int)
    ensures Random.After(a + b, n) == Random.After(b, Random.After(a, n))
    decreases a
  {
    if a > 0 { AfterAdd(a - 1, b, Random.Next(n)); }
  }

  /** The body of the walk for a selected site. */
  method MakeAtom(job: Job, s: Site) returns (atom: Created)
    requires job.Valid() && OfCrystal(job.n, s)
    ensures atom == AtomOf(job, s) && RightAtom(job, s, atom)
  {
    NumbersDistinct(job, s, s);
    hide RightAtom;
    hide Job.Valid;
    hide Random.After;
    hide Random.Scaled;
    hide Job.Number;
    hide Job.Position;
    hide OfCrystal;
    var n := job.Number(s);
    AfterAdd(6, 6, n);
    AfterAdd(12, 6, n);
    var n1, vx := DrawSixth(n);
    var n2, vy := DrawSixth(n1);
    var n3, vz := DrawSixth(n2);
    atom := Created(job.Position(s), V3(vx, vy, vz));
    RightAtomIs(job, s, atom);
  }

  ghost predicate Distinct(sites: seq<Site>) { forall a, b :: 0 <= a < b < |sites| ==> sites[a] != sites[b] }

  /** Each of the crystal's sites in the box, once, and nothing else. */
  ghost predicate Mine(job: Job, sites: seq<Site>) {
    Distinct(sites) && forall s :: s in sites <==> OfCrystal(job.n, s) && job.InBox(s)
  }

  /** a is the atom of a site of even parity in the crystal, and lies in the box. */
  ghost predicate MadeFrom(job: Job, a: Created) {
    && job.lo.x <= a.x.x < job.hi.x && job.lo.y <= a.x.y < job.hi.y && job.lo.z <= a.x.z < job.hi.z
    && exists s: Site :: (s.i + s.j + s.k) % 2 == 0 && 0 <= s.i < 2 * job.n.x && 0 <= s.j < 2 * job.n.y && 0 <= s.k < 2 * job.n.z && RightAtom(job, s, a)
  }

  ghost predicate Drawn(job: Job, a: Created) { exists s :: OfCrystal(job.n, s) && job.InBox(s) && a == AtomOf(job, s) }

  lemma MadeFromDrawn(job: Job, a: Created)
    ensures MadeFrom(job, a) <==> Drawn(job, a)
  {
    forall s ensures RightAtom(job, s, a) <==> a == AtomOf(job, s) { RightAtomIs(job, s, a); }
    hide RightAtom;
    forall s | a == AtomOf(job, s)
      ensures job.InBox(s) <==> job.lo.x <= a.x.x < job.hi.x && job.lo.y <= a.x.y < job.hi.y && job.lo.z <= a.x.z < job.hi.z {}
    hide AtomOf;
    hide Job.InBox;
  }

  /** What one process creates: the atom of each of the crystal's sites in its box, once,
      and nothing else. */
  ghost predicate Populates(job: Job, atoms: seq<Created>) {
    forall a :: multiset(atoms)[a] == if MadeFrom(job, a) then 1 else 0
  }

  lemma AtomsDiffer(job: Job, s: Site, t: Site)
    requires job.alat > 0.0 && AtomOf(job, s) == AtomOf(job, t)
    ensures s == t
  {
    hide Random.After;
    hide Random.Scaled;
    hide Mul;
    assert job.Position(s) == job.Position(t);
    SameCell(s.i, t.i, job.Half());
    SameCell(s.j, t.j, job.Half());
    SameCell(s.k, t.k, job.Half());
  }

  lemma SameCell(a: int, b: int, h: real)
    requires h > 0.0 && Mul(a, h) == Mul(b, h)
    ensures a == b
  {
    MulMono(a, b, h);
    MulMono(b, a, h);
  }

  lemma {:induction false} OnceAt(atoms: seq<Created>, k: nat)
    requires k < |atoms| && forall i :: 0 <= i < |atoms| && i != k ==> atoms[i] != atoms[k]
    ensures multiset(atoms)[atoms[k]] == 1
  {
    var n := |atoms| - 1;
    assert atoms == atoms[..n] + [atoms[n]];
    if k < n { OnceAt(atoms[..n], k); } else { assert atoms[n] !in atoms[..n]; }
  }

  lemma AtomsPopulate(job: Job, sites: seq<Site>)
    requires job.alat > 0.0 && Mine(job, sites)
    ensures Populates(job, Atoms(job, sites))
  {
    var atoms := Atoms(job, sites);
    hide AtomOf;
    hide OfCrystal;
    hide Job.InBox;
    hide MadeFrom;
    forall k | 0 <= k < |atoms| ensures MadeFrom(job, atoms[k]) {
      assert sites[k] in sites && atoms[k] == AtomOf(job, sites[k]);
      MadeFromDrawn(job, atoms[k]);
    }
    forall a ensures multiset(atoms)[a] == if MadeFrom(job, a) then 1 else 0 {
      assert a in atoms ==> MadeFrom(job, a);
      MadeFromDrawn(job, a);
      if MadeFrom(job, a) {
        var s :| OfCrystal(job.n, s) && job.InBox(s) && a == AtomOf(job, s);
        assert s in sites;
        var k :| 0 <= k < |sites| && sites[k] == s;
        forall i | 0 <= i < |atoms| && i != k ensures atoms[i] != atoms[k] {
          if atoms[i] == atoms[k] { AtomsDiffer(job, sites[i], s); }
        }
        OnceAt(atoms, k);
      }
    }
  }

  /** The sites selected so far. */
  ghost predicate SoFar(job: Job, o: Odometer, sites: seq<Site>)
    requires job.Valid()
  {
    Distinct(sites) && forall s :: s in sites <==> job.Selected(s) && Before(s, o.At())
  }

  lemma SelectedPadded(job: Job, s: Site)
    requires job.Valid() && job.Selected(s)
    ensures Padded(s, job.Last(0), job.Last(1), job.Last(2))
  {
    RangesOk(job);
    hide Job.First;
    hide Job.Last;
    hide Job.Valid;
  }

  lemma WalkOn(job: Job, o: Odometer, sites: seq<Site>, sites': seq<Site>)
    requires job.Valid() && SoFar(job, o, sites) && o.Valid(job.Last(0), job.Last(1))
    requires sites' == if job.Selected(o.At()) then sites + [o.At()] else sites
    ensures SoFar(job, o.Next(job.Last(0), job.Last(1)), sites')
  {
    var p := o.Next(job.Last(0), job.Last(1));
    RangesOk(job);
    assert !Before(o.At(), o.At());
    hide Before;
    hide Job.Selected;
    hide Job.Valid;
    hide Job.First;
    hide Job.Last;
    hide Odometer.Next;
    hide Odometer.At;
    hide Padded;
    forall s ensures s in sites' <==> job.Selected(s) && Before(s, p.At()) {
      if job.Selected(s) {
        SelectedPadded(job, s);
        NextIsNext(o, job.Last(0), job.Last(1), job.Last(2), s);
      }
    }
  }

  lemma WalkStarts(job: Job)
    requires job.Valid()
    ensures SoFar(job, Odometer(0, 0, 0, 0, 0, 0), [])
  {
    forall s | job.Selected(s) ensures !Before(s, Odometer(0, 0, 0, 0, 0, 0).At()) {
      SelectedPadded(job, s);
      hide Job.Selected;
      hide Job.Valid;
    }
  }

  lemma WalkEnds(job: Job, o: Odometer, sites: seq<Site>)
    requires job.Valid() && SoFar(job, o, sites) && o.Valid(job.Last(0), job.Last(1)) && o.oz * SUB > job.Last(2)
    ensures Mine(job, sites)
  {
    RangesOk(job);
    hide Job.Valid;
    hide Job.First;
    hide Job.Last;
    forall s ensures s in sites <==> OfCrystal(job.n, s) && job.InBox(s) {
      SelectedExactly(job, s);
      hide Job.InBox;
      hide OfCrystal;
      if job.Selected(s) {
        SelectedPadded(job, s);
        AtDigits(o, job.Last(0), job.Last(1));
      }
    }
  }

  /** The five tests on the counters are the carries, and the walk comes nearer its end. */
  lemma Carries(o: Odometer, ihi: int, jhi: int)
    requires o.Valid(ihi, jhi) && ihi >= 0 && jhi >= 0
    ensures var p := o.Next(ihi, jhi); p.Valid(ihi, jhi)
    ensures var p := o.Next(ihi, jhi);
            || p.oz > o.oz || (p.oz == o.oz && (p.oy > o.oy || (p.oy == o.oy && (p.ox > o.ox || (p.ox == o.ox
            && (p.sz > o.sz || (p.sz == o.sz && (p.sy > o.sy || (p.sy == o.sy && p.sx > o.sx)))))))))
  {}

  lemma ValidParts(o: Odometer, ihi: int, jhi: int)
    requires o.Valid(ihi, jhi)
    ensures o.sx < SUB && o.sy < SUB && o.sz < SUB && o.ox <= ihi && o.oy <= jhi
  {}

  /** The tail of the walk's loop: one turn of the counters. */
  method Turn(o: Odometer, ihi: int, jhi: int) returns (p: Odometer)
    ensures p == o.Next(ihi, jhi)
  {
    var sx, sy, sz, ox, oy, oz := o.sx + 1, o.sy, o.sz, o.ox, o.oy, o.oz;
    if sx == SUB { sx, sy := 0, sy + 1; }
    if sy == SUB { sy, sz := 0, sz + 1; }
    if sz == SUB { sz, ox := 0, ox + 1; }
    if ox * SUB > ihi { ox, oy := 0, oy + 1; }
    if oy * SUB > jhi { oy, oz := 0, oz + 1; }
    p := Odometer(sx, sy, sz, ox, oy, oz);
  }

  lemma AtIs(o: Odometer)
    ensures o.At() == Site(o.ox * SUB + o.sx, o.oy * SUB + o.sy, o.oz * SUB + o.sz) && o.oz <= o.oz * SUB
  {}

  lemma FirstOdometer(ihi: int, jhi: int)
    requires ihi >= 0 && jhi >= 0
    ensures Odometer(0, 0, 0, 0, 0, 0).Valid(ihi, jhi)
  {}

  lemma SelectedOfCrystal(job: Job, s: Site)
    requires job.Valid() && job.Selected(s)
    ensures OfCrystal(job.n, s)
  {
    SelectedExactly(job, s);
  }

  function Atoms(job: Job, sites: seq<Site>): (r: seq<Created>)
    ensures |r| == |sites|
  {
    seq(|sites|, m requires 0 <= m < |sites| => AtomOf(job, sites[m]))
  }

  lemma AtomsAppend(job: Job, sites: seq<Site>, s: Site)
    ensures Atoms(job, sites + [s]) == Atoms(job, sites) + [AtomOf(job, s)] && Atoms(job, []) == []
  {}

  /** The arrays after addatom for each site of a walk. */
  ghost predicate Walked(job: Job, s: Store<Created>, junk: Junk<Created>) {
    exists sites :: Mine(job, sites) && s == PutAll(Store([], 0), Atoms(job, sites), junk)
  }

  lemma PutMore(s: Store<Created>, vs: seq<Created>, v: Created, junk: Junk<Created>)
    requires s.Valid()
    ensures PutAll(s, vs + [v], junk) == Put(PutAll(s, vs, junk), v, junk) && PutAll(s, [], junk) == s
  {
    assert (vs + [v])[..|vs|] == vs;
  }

  /** Atom::addatom, which grows the arrays when they are full, and then keeps nothing. */
  method AddAtom(atoms: seq<Created>, nmax: nat, atom: Created, junk: Junk<Created>) returns (atoms': seq<Created>, nmax': nat)
    requires |atoms| <= nmax
    ensures |atoms'| <= nmax' && Store(atoms', nmax') == Put(Store(atoms, nmax), atom, junk)
  {
    atoms', nmax' := atoms, nmax;
    if |atoms| == nmax { atoms', nmax' := Fresh(nmax, Grown(nmax), junk), Grown(nmax); }
    atoms' := atoms' + [atom];
  }

  /** create_atoms of one process. */
  method CreateAtoms(job: Job, junk: Junk<Created>) returns (atoms: seq<Created>, nmax: nat)
    requires job.Valid()
    ensures Walked(job, Store(atoms, nmax), junk)
  {
    RangesOk(job);
    WalkStarts(job);
    hide Job.Valid;
    hide Job.First;
    hide Job.Last;
    hide Job.Selected;
    hide Job.InBox;
    hide Atoms;
    hide SoFar;
    hide Mine;
    hide PutAll;
    hide Put;
    hide OfCrystal;
    hide Odometer.Next;
    hide Odometer.At;
    hide Odometer.Valid;
    hide AtomOf;
    hide Before;
    hide Random.Fits;
    var ihi, jhi, khi := job.Last(0), job.Last(1), job.Last(2);
    atoms, nmax := [], 0;
    ghost var sites: seq<Site> := [];
    FirstOdometer(ihi, jhi);
    AtomsAppend(job, [], Site(0, 0, 0));
    PutMore(Store([], 0), [], AtomOf(job, Site(0, 0, 0)), junk);
    var o := Odometer(0, 0, 0, 0, 0, 0);
    while o.oz * SUB <= khi
      invariant o.Valid(ihi, jhi) && SoFar(job, o, sites)
      invariant |atoms| <= nmax && Store(atoms, nmax) == PutAll(Store([], 0), Atoms(job, sites), junk)
      decreases khi - o.oz, jhi - o.oy, ihi - o.ox, SUB - o.sz, SUB - o.sy, SUB - o.sx
    {
      var s := Site(o.ox * SUB + o.sx, o.oy * SUB + o.sy, o.oz * SUB + o.sz);
      AtIs(o);
      ValidParts(o, ihi, jhi);
      Carries(o, ihi, jhi);
      ghost var was := sites;
      if job.Selected(s) {
        SelectedOfCrystal(job, s);
        AtomsAppend(job, sites, s);
        var atom := MakeAtom(job, s);
        PutMore(Store([], 0), Atoms(job, sites), atom, junk);
        atoms, nmax := AddAtom(atoms, nmax, atom, junk);
        sites := sites + [s];
      }
      WalkOn(job, o, was, sites);
      o := Turn(o, ihi, jhi);
      ValidParts(o, ihi, jhi);
    }
    WalkEnds(job, o, sites);
  }

  /** The box of process c in the crystal's periodic box. */
  predicate BoxOf(ax: V3<Axis>, c: Proc, job: Job)
    requires ax.x.Valid() && ax.y.Valid() && ax.z.Valid()
  {
    forall d: nat | d < 3 ::
      && ax.At(d).prd == Mul(2 * job.n.At(d), job.Half())
      && job.lo.At(d) == ax.At(d).Edge(c.At(d)) && job.hi.At(d) == ax.At(d).Edge(c.At(d) + 1)
  }

  lemma {:induction false} FindBox(a: Axis, x: real, n: nat) returns (c: nat)
    requires a.Valid() && 0.0 <= x < a.Edge(n)
    ensures c < n && a.Edge(c) <= x < a.Edge(c + 1)
    decreases n
  {
    EdgeEnds(a);
    if x < a.Edge(n - 1) { c := FindBox(a, x, n - 1); } else { c := n - 1; }
  }

  lemma BoxUnique(a: Axis, x: real, b: nat, c: nat)
    requires a.Valid() && a.Edge(b) <= x < a.Edge(b + 1) && a.Edge(c) <= x < a.Edge(c + 1)
    ensures b == c
  {
    if b + 1 < c { EdgeMono(a, b + 1, c); }
    if c + 1 < b { EdgeMono(a, c + 1, b); }
  }

  predicate ValidAxes(ax: V3<Axis>) { ax.x.Valid() && ax.y.Valid() && ax.z.Valid() }

  /** Every site of the crystal is in the box of exactly one process. */
  lemma OneOwner(ax: V3<Axis>, jobs: Proc -> Job, n: V3<nat>, alat: real, s: Site) returns (w: Proc)
    requires ValidAxes(ax) && alat > 0.0 && OfCrystal(n, s)
    requires forall c | InGrid(ax, c) :: jobs(c).n == n && jobs(c).alat == alat && BoxOf(ax, c, jobs(c))
    ensures InGrid(ax, w) && forall c | InGrid(ax, c) :: jobs(c).InBox(s) <==> c == w
  {
    var h := 0.5 * alat;
    var some := V3(0, 0, 0);
    assert InGrid(ax, some);
    BoxParts(ax, some, jobs(some));
    SiteRanges(n, s);
    hide Axis.Edge;
    hide Mul;
    hide BoxOf;
    hide OfCrystal;
    var cx := AxisOwner(ax.x, s.i, n.x, h);
    var cy := AxisOwner(ax.y, s.j, n.y, h);
    var cz := AxisOwner(ax.z, s.k, n.z, h);
    w := V3(cx, cy, cz);
    forall c | InGrid(ax, c) ensures jobs(c).InBox(s) <==> c == w {
      BoxParts(ax, c, jobs(c));
      AxisUnique(ax.x, Mul(s.i, h), c.x, cx);
      AxisUnique(ax.y, Mul(s.j, h), c.y, cy);
      AxisUnique(ax.z, Mul(s.k, h), c.z, cz);
      InBoxIs(jobs(c), s);
    }
  }

  lemma SiteRanges(n: V3<nat>, s: Site)
    requires OfCrystal(n, s)
    ensures 0 <= s.i < 2 * n.x && 0 <= s.j < 2 * n.y && 0 <= s.k < 2 * n.z
  {}

  lemma InBoxIs(job: Job, s: Site)
    ensures var h := 0.5 * job.alat;
            job.InBox(s) <==> job.lo.x <= Mul(s.i, h) < job.hi.x && job.lo.y <= Mul(s.j, h) < job.hi.y && job.lo.z <= Mul(s.k, h) < job.hi.z
  {}

  lemma BoxParts(ax: V3<Axis>, c: Proc, job: Job)
    requires ValidAxes(ax) && BoxOf(ax, c, job)
    ensures job.lo.x == ax.x.Edge(c.x) && job.hi.x == ax.x.Edge(c.x + 1)
    ensures job.lo.y == ax.y.Edge(c.y) && job.hi.y == ax.y.Edge(c.y + 1)
    ensures job.lo.z == ax.z.Edge(c.z) && job.hi.z == ax.z.Edge(c.z + 1)
    ensures var h := 0.5 * job.alat; ax.x.prd == Mul(2 * job.n.x, h) && ax.y.prd == Mul(2 * job.n.y, h) && ax.z.prd == Mul(2 * job.n.z, h)
  {
    hide Axis.Edge;
    hide Mul;
    assert job.lo.At(0) == ax.At(0).Edge(c.At(0)) && job.lo.At(1) == ax.At(1).Edge(c.At(1)) && job.lo.At(2) == ax.At(2).Edge(c.At(2));
  }

  lemma AxisOwner(a: Axis, i: int, n: nat, h: real) returns (c: nat)
    requires a.Valid() && h > 0.0 && a.prd == Mul(2 * n, h) && 0 <= i < 2 * n
    ensures c < a.procs && a.Edge(c) <= Mul(i, h) < a.Edge(c + 1)
  {
    EdgeEnds(a);
    MulMono(0, i, h);
    MulMono(i, 2 * n, h);
    c := FindBox(a, Mul(i, h), a.procs);
  }

  lemma AxisUnique(a: Axis, x: real, b: nat, c: nat)
    requires a.Valid() && a.Edge(c) <= x < a.Edge(c + 1)
    ensures a.Edge(b) <= x < a.Edge(b + 1) <==> b == c
  {
    if a.Edge(b) <= x < a.Edge(b + 1) { BoxUnique(a, x, b, c); }
  }

  predicate OfRow(nx: nat, j: nat, k: nat, s: Site) { s.j == j && s.k == k && 0 <= s.i < 2 * nx && (s.i + s.j + s.k) % 2 == 0 }

  lemma OfRowStep(nx: nat, j: nat, k: nat, s: Site)
    requires nx > 0
    ensures OfRow(nx, j, k, s) <==> OfRow(nx - 1, j, k, s) || s == Site(2 * (nx - 1) + (j + k) % 2, j, k)
  {
    var c := j + k;
    assert (2 * (nx - 1) + c) % 2 == c % 2;
  }

  /** The even sites 2 * nx half-cells wide: one row, m rows, and l layers of them. */
  function Row(nx: nat, j: nat, k: nat): (r: set<Site>)
    ensures |r| == nx && forall s :: s in r <==> OfRow(nx, j, k, s)
  {
    if nx == 0 then {}
    else
      hide OfRow;
      assert forall s :: OfRow(nx, j, k, s) <==> OfRow(nx - 1, j, k, s) || s == Site(2 * (nx - 1) + (j + k) % 2, j, k) by {
        forall s ensures OfRow(nx, j, k, s) <==> OfRow(nx - 1, j, k, s) || s == Site(2 * (nx - 1) + (j + k) % 2, j, k) { OfRowStep(nx, j, k, s); }
      }
      assert !OfRow(nx - 1, j, k, Site(2 * (nx - 1) + (j + k) % 2, j, k)) by { LastIsNew(nx, j, k); }
      Row(nx - 1, j, k) + {Site(2 * (nx - 1) + (j + k) % 2, j, k)}
  }

  lemma LastIsNew(nx: nat, j: nat, k: nat)
    requires nx > 0
    ensures !OfRow(nx - 1, j, k, Site(2 * (nx - 1) + (j + k) % 2, j, k))
  {}

  function Layer(nx: nat, m: nat, k: nat): (r: set<Site>)
    ensures |r| == m * nx && forall s :: s in r <==> 0 <= s.j < m && OfRow(nx, s.j, k, s)
  {
    hide OfRow;
    if m == 0 then {}
    else
      RowIs(nx, m - 1, k);
      MulNext(m - 1, nx);
      assert Layer(nx, m - 1, k) !! Row(nx, m - 1, k);
      Layer(nx, m - 1, k) + Row(nx, m - 1, k)
  }

  lemma RowIs(nx: nat, j: nat, k: nat)
    ensures forall s :: s in Row(nx, j, k) <==> s.j == j && OfRow(nx, s.j, k, s)
  {}

  function Block(nx: nat, m: nat, l: nat): (r: set<Site>)
    ensures |r| == l * (m * nx) && forall s :: s in r <==> 0 <= s.k < l && 0 <= s.j < m && OfRow(nx, s.j, s.k, s)
  {
    hide OfRow;
    if l == 0 then {}
    else
      LayerIs(nx, m, l - 1);
      MulNext(l - 1, m * nx);
      assert Block(nx, m, l - 1) !! Layer(nx, m, l - 1);
      Block(nx, m, l - 1) + Layer(nx, m, l - 1)
  }

  lemma LayerIs(nx: nat, m: nat, k: nat)
    ensures forall s :: s in Layer(nx, m, k) <==> s.k == k && 0 <= s.j < m && OfRow(nx, s.j, s.k, s)
  {}

  /** All sites of the crystal: four to a unit cell. */
  lemma CrystalCount(n: V3<nat>) returns (all: set<Site>)
    ensures |all| == 4 * n.x * n.y * n.z && forall s :: s in all <==> OfCrystal(n, s)
  {
    all := Block(n.x, 2 * n.y, 2 * n.z);
    FourPerCell(n.x, n.y, n.z);
    hide Block;
  }

  lemma FourPerCell(x: nat, y: nat, z: nat)
    ensures (2 * z) * ((2 * y) * x) == 4 * x * y * z
  {}

  /** How many of a set of sites are in the box of a process. */
  ghost function Share(all: set<Site>, jobs: Proc -> Job): Proc -> real {
    c => |set s | s in all && jobs(c).InBox(s)| as real
  }

  ghost function Has(jobs: Proc -> Job, s: Site): Proc -> real { c => if jobs(c).InBox(s) then 1.0 else 0.0 }

  /** Sites with one owner each add up. */
  lemma {:induction false} SharesAdd(ax: V3<Axis>, jobs: Proc -> Job, all: set<Site>, owner: map<Site, Proc>)
    requires forall s | s in all :: s in owner && InGrid(ax, owner[s]) && forall c | InGrid(ax, c) :: jobs(c).InBox(s) <==> c == owner[s]
    ensures Total(ax, Share(all, jobs)) == |all| as real
    decreases |all|
  {
    hide Total;
    hide Job.InBox;
    if all == {} {
      forall c | InGrid(ax, c) ensures Share(all, jobs)(c) == 0.0 {
        assert (set s | s in all && jobs(c).InBox(s)) == {};
      }
      TotalZero(ax, Share(all, jobs));
    } else {
      var s :| s in all;
      SharesAdd(ax, jobs, all - {s}, owner);
      forall c | InGrid(ax, c) ensures Share(all, jobs)(c) == Share(all - {s}, jobs)(c) + Has(jobs, s)(c) { ShareOne(all, jobs, s, c); }
      assert InGrid(ax, owner[s]) && Has(jobs, s)(owner[s]) == 1.0;
      assert forall c | InGrid(ax, c) && c != owner[s] :: Has(jobs, s)(c) == 0.0;
      hide Share;
      hide Has;
      TotalAdd(ax, Share(all - {s}, jobs), Has(jobs, s), Share(all, jobs));
      TotalPoint(ax, Has(jobs, s), owner[s]);
    }
  }

  lemma ShareOne(all: set<Site>, jobs: Proc -> Job, s: Site, c: Proc)
    requires s in all
    ensures Share(all, jobs)(c) == Share(all - {s}, jobs)(c) + Has(jobs, s)(c)
  {
    hide Job.InBox;
    var now, before := set t | t in all && jobs(c).InBox(t), set t | t in all - {s} && jobs(c).InBox(t);
    assert now == if jobs(c).InBox(s) then before + {s} else before;
  }

  lemma TotalZero(ax: V3<Axis>, F: Proc -> real)
    requires forall c | InGrid(ax, c) :: F(c) == 0.0
    ensures Total(ax, F) == 0.0
  {
    TotalAdd(ax, F, F, F);
  }

  lemma {:induction false} DistinctCount(sites: seq<Site>)
    requires Distinct(sites)
    ensures |set s | s in sites| == |sites|
  {
    if sites != [] {
      var n := |sites| - 1;
      DistinctCount(sites[..n]);
      assert sites == sites[..n] + [sites[n]];
      assert (set s | s in sites) == (set s | s in sites[..n]) + {sites[n]};
      assert sites[n] !in sites[..n];
    }
  }

  /** How many of the crystal's sites are in the box. */
  function OwnSites(job: Job): set<Site> {
    set s | s in Block(job.n.x, 2 * job.n.y, 2 * job.n.z) && job.InBox(s)
  }

  lemma OwnSitesIs(job: Job, s: Site)
    ensures s in OwnSites(job) <==> OfCrystal(job.n, s) && job.InBox(s)
  {
    hide Job.InBox;
  }

  lemma MineCount(job: Job, sites: seq<Site>)
    requires Mine(job, sites)
    ensures |sites| == |OwnSites(job)|
  {
    forall s ensures s in OwnSites(job) <==> s in sites { OwnSitesIs(job, s); }
    hide OwnSites;
    DistinctCount(sites);
    assert (set s | s in sites) == OwnSites(job);
  }

  lemma {:induction false} Listed(sites: set<Site>) returns (l: seq<Site>)
    ensures Distinct(l) && forall s :: s in l <==> s in sites
  {
    if sites == {} {
      l := [];
    } else {
      var s :| s in sites;
      var rest := Listed(sites - {s});
      l := rest + [s];
    }
  }

  /** The arrays have room for 320000 atoms from the start. A process creates what it
      should, whatever fresh memory holds, if and only if no more are in its box. */
  lemma CreatedExactly(job: Job)
    requires job.Valid()
    ensures (forall s, junk | Walked(job, s, junk) :: Populates(job, s.live)) <==> |OwnSites(job)| <= 320000
  {
    if |OwnSites(job)| <= 320000 {
      forall s, junk | Walked(job, s, junk) ensures Populates(job, s.live) { WalkedRight(job, s, junk); }
    } else {
      var s, junk := WalkedWrong(job);
    }
  }

  lemma WalkedRight(job: Job, s: Store<Created>, junk: Junk<Created>)
    requires job.alat > 0.0 && Walked(job, s, junk) && |OwnSites(job)| <= 320000
    ensures Populates(job, s.live)
  {
    hide Mine;
    hide Atoms;
    hide Populates;
    hide OwnSites;
    var sites :| Mine(job, sites) && s == PutAll(Store([], 0), Atoms(job, sites), junk);
    MineCount(job, sites);
    PutAllKeeps(Store([], 0), Atoms(job, sites), junk);
    assert [] + Atoms(job, sites) == Atoms(job, sites);
    AtomsPopulate(job, sites);
  }

  lemma WalkedWrong(job: Job) returns (s: Store<Created>, junk: Junk<Created>)
    requires job.Valid() && |OwnSites(job)| > 320000
    ensures Walked(job, s, junk) && !Populates(job, s.live)
  {
    var sites := Listed(OwnSites(job));
    forall t ensures t in sites <==> OfCrystal(job.n, t) && job.InBox(t) { OwnSitesIs(job, t); }
    assert Mine(job, sites);
    MineCount(job, sites);
    var out := Created(V3(job.lo.x - 1.0, 0.0, 0.0), V3(0.0, 0.0, 0.0));
    OutNotMade(job, out);
    junk := (_, _) => out;
    PutAllKeeps(Store([], 0), Atoms(job, sites), junk);
    s := PutAll(Store([], 0), Atoms(job, sites), junk);
    hide Mine;
    hide MadeFrom;
    hide PutAll;
    hide OwnSites;
    assert s.live[0] == out;
    assert multiset(s.live)[out] > 0;
  }

  lemma OutNotMade(job: Job, a: Created)
    requires a.x.x < job.lo.x
    ensures !MadeFrom(job, a)
  {}

  ghost function Held(made: Proc -> Store<Created>): Proc -> real { c => |made(c).live| as real }

  lemma WalkedCount(job: Job, s: Store<Created>, junk: Junk<Created>)
    requires Walked(job, s, junk)
    ensures |s.live| == |OwnSites(job)|
  {
    hide Mine;
    hide OwnSites;
    var sites :| Mine(job, sites) && s == PutAll(Store([], 0), Atoms(job, sites), junk);
    MineCount(job, sites);
  }

  lemma SharesOwn(job: Job, all: set<Site>)
    requires forall s :: s in all <==> OfCrystal(job.n, s)
    ensures OwnSites(job) == set s | s in all && job.InBox(s)
  {
    forall s ensures s in OwnSites(job) <==> s in all && job.InBox(s) { OwnSitesIs(job, s); }
    hide OwnSites;
    hide Job.InBox;
  }

  /** The check at the end of create_atoms never fails, even if atoms have been lost: over
      all processes exactly 4 * nx * ny * nz are counted, whatever the processor grid. */
  lemma AllCreated(ax: V3<Axis>, jobs: Proc -> Job, n: V3<nat>, alat: real, made: Proc -> Store<Created>, junk: Junk<Created>)
    requires ValidAxes(ax) && alat > 0.0
    requires forall c | InGrid(ax, c) :: jobs(c).n == n && jobs(c).alat == alat && BoxOf(ax, c, jobs(c)) && Walked(jobs(c), made(c), junk)
    ensures Total(ax, Held(made)) == (4 * n.x * n.y * n.z) as real
  {
    var all := CrystalCount(n);
    var owner := Owners(ax, jobs, n, alat, all);
    SharesAdd(ax, jobs, all, owner);
    hide Walked;
    hide Total;
    hide BoxOf;
    hide OfCrystal;
    forall c | InGrid(ax, c) ensures Held(made)(c) == Share(all, jobs)(c) {
      WalkedCount(jobs(c), made(c), junk);
      SharesOwn(jobs(c), all);
    }
    hide Held;
    hide Share;
    TotalEq(ax, Held(made), Share(all, jobs));
  }

  /** One process and a crystal of 44 * 44 * 44 cells: it creates 340736 atoms, and can
      lose 320000 of them. */
  lemma LargeExample(job: Job)
    requires job.Valid() && job.n == V3(44, 44, 44)
    requires forall d: nat | d < 3 :: job.lo.At(d) == 0.0 && job.hi.At(d) == Mul(88, job.Half())
    ensures |OwnSites(job)| == 340736
    ensures exists s, junk :: Walked(job, s, junk) && !Populates(job, s.live)
  {
    LargeCount(job);
    hide *;
    var s, junk := WalkedWrong(job);
  }

  lemma LargeCount(job: Job)
    requires job.Valid() && job.n == V3(44, 44, 44)
    requires forall d: nat | d < 3 :: job.lo.At(d) == 0.0 && job.hi.At(d) == Mul(88, job.Half())
    ensures |OwnSites(job)| == 340736
  {
    var all := CrystalCount(job.n);
    hide OwnSites;
    hide OfCrystal;
    hide Job.InBox;
    hide Job.Half;
    hide Mul;
    forall s ensures s in OwnSites(job) <==> s in all {
      OwnSitesIs(job, s);
      if s in all { WholeBox(job, s); }
    }
    hide *;
    assert OwnSites(job) == all;
    assert |all| == 340736;
  }

  lemma WholeBox(job: Job, s: Site)
    requires job.Valid() && job.n == V3(44, 44, 44) && OfCrystal(job.n, s)
    requires forall d: nat | d < 3 :: job.lo.At(d) == 0.0 && job.hi.At(d) == Mul(88, job.Half())
    ensures job.InBox(s)
  {
    assert job.lo.At(0) == job.lo.At(1) == job.lo.At(2) == 0.0;
    assert job.hi.At(0) == job.hi.At(1) == job.hi.At(2) == Mul(88, job.Half());
    var h := job.Half();
    MulMono(0, s.i, h);
    MulMono(0, s.j, h);
    MulMono(0, s.k, h);
    MulMono(s.i, 88, h);
    MulMono(s.j, 88, h);
    MulMono(s.k, 88, h);
    assert Mul(0, h) == 0.0;
    hide Mul;
  }

  lemma {:induction false} Owners(ax: V3<Axis>, jobs: Proc -> Job, n: V3<nat>, alat: real, all: set<Site>) returns (owner: map<Site, Proc>)
    requires ValidAxes(ax) && alat > 0.0 && forall s | s in all :: OfCrystal(n, s)
    requires forall c | InGrid(ax, c) :: jobs(c).n == n && jobs(c).alat == alat && BoxOf(ax, c, jobs(c))
    ensures forall s | s in all :: s in owner && InGrid(ax, owner[s]) && forall c | InGrid(ax, c) :: jobs(c).InBox(s) <==> c == owner[s]
    decreases |all|
  {
    if all == {} {
      owner := map[];
    } else {
      var s :| s in all;
      var rest := Owners(ax, jobs, n, alat, all - {s});
      var w := OneOwner(ax, jobs, n, alat, s);
      owner := rest[s := w];
    }
  }
}
