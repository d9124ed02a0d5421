/** Migration of atoms to the process that owns their box: Atom::pbc and
    Comm::exchange, for all processes in lockstep. */
module Exchange {
  import opened Vec3
  import opened Grid
  import opened Sums

  /** An owned atom. The program stores x and v; id is the name the model gives
      the atom, and no branch looks at it. */
  datatype Particle = Particle(x: Vec, v: Vec, id: int)

  /** One coordinate of Atom::pbc: two tests, in this order. */
  function Wrap(x: real, prd: real): real {
    var y := if x < 0.0 then x + prd else x;
    if y >= prd then y - prd else y
  }

  function PbcOne(ax: V3<Axis>, p: Particle): Particle {
    p.(x := V3(Wrap(p.x.x, ax.x.prd), Wrap(p.x.y, ax.y.prd), Wrap(p.x.z, ax.z.prd)))
  }

  function Pbc(ax: V3<Axis>, s: seq<Particle>): (r: seq<Particle>)
    ensures |r| == |s|
    ensures forall i :: 0 <= i < |s| ==> r[i] == PbcOne(ax, s[i])
  {
    seq(|s|, i requires 0 <= i < |s| => PbcOne(ax, s[i]))
  }

  /** One wrap brings a coordinate home exactly if it is at most one period out. */
  lemma WrapHome(x: real, prd: real)
    requires prd > 0.0
    ensures 0.0 <= Wrap(x, prd) < prd <==> -prd <= x < 2.0 * prd
  {}

  /** p is b moved by k whole periods, at most one per axis. */
  ghost predicate ShiftedBy(ax: V3<Axis>, b: Particle, k: V3<int>, p: Particle) {
    && -1 <= k.x <= 1 && -1 <= k.y <= 1 && -1 <= k.z <= 1
    && p.x.x == b.x.x + k.x as real * ax.x.prd && p.x.y == b.x.y + k.y as real * ax.y.prd && p.x.z == b.x.z + k.z as real * ax.z.prd
    && p.v == b.v && p.id == b.id
  }

  /** Wrapping moves a coordinate by whole periods: up one from below, down one from
      above, and inside the box not at all. */
  lemma WrapShifts(x: real, prd: real) returns (k: int)
    requires prd > 0.0
    ensures -1 <= k <= 1 && Wrap(x, prd) == x + k as real * prd
    ensures -prd <= x < 2.0 * prd ==> k == if x < 0.0 then 1 else if x < prd then 0 else -1
  {
    k := if x < 0.0 then 1 else if x < prd then 0 else -1;
  }

  /** So pbc moves an atom by whole periods, and leaves the rest of it alone. */
  lemma PbcShifts(ax: V3<Axis>, p: Particle) returns (k: V3<int>)
    requires ax.x.Valid() && ax.y.Valid() && ax.z.Valid()
    ensures ShiftedBy(ax, p, k, PbcOne(ax, p))
  {
    var x := WrapShifts(p.x.x, ax.x.prd);
    var y := WrapShifts(p.x.y, ax.y.prd);
    var z := WrapShifts(p.x.z, ax.z.prd);
    k := V3(x, y, z);
  }

  predicate Inside(p: Particle, d: nat, lo: real, hi: real)
    requires d < 3
  {
    lo <= p.x.At(d) < hi
  }

  /** The loop that packs departing atoms and fills each hole with the last
      atom: the atoms kept, and the buffer. */
  function Depart(s: seq<Particle>, i: nat, d: nat, lo: real, hi: real): (seq<Particle>, seq<Particle>)
    requires d < 3 && i <= |s|
    decreases |s| - i
  {
    if i == |s| then (s, [])
    else if Inside(s[i], d, lo, hi) then Depart(s, i + 1, d, lo, hi)
    else
      var r := Depart(s[i := s[|s| - 1]][..|s| - 1], i, d, lo, hi);
      (r.0, [s[i]] + r.1)
  }

  /** The incoming atoms that are in the box, in order. */
  function Accept(s: seq<Particle>, d: nat, lo: real, hi: real): seq<Particle>
    requires d < 3
  {
    if s == [] then [] else
      var n := |s| - 1;
      Accept(s[..n], d, lo, hi) + if Inside(s[n], d, lo, hi) then [s[n]] else []
  }

  lemma DropLast(s: seq<Particle>)
    requires s != []
    ensures multiset(s) == multiset(s[..|s| - 1]) + multiset{s[|s| - 1]}
  {
    assert s == s[..|s| - 1] + [s[|s| - 1]];
  }

  lemma FillHole(s: seq<Particle>, i: nat)
    requires i < |s|
    ensures multiset(s[i := s[|s| - 1]][..|s| - 1]) + multiset{s[i]} == multiset(s)
  {
    var n := |s| - 1;
    DropLast(s);
    if i < n {
      assert s[i := s[n]][..n] == s[..n][i := s[n]];
    } else {
      assert s[i := s[n]][..n] == s[..n];
    }
  }

  /** Hole filling loses and duplicates nothing, and separates the atoms of the
      box from the others. */
  lemma {:induction false} DepartSplits(s: seq<Particle>, i: nat, d: nat, lo: real, hi: real)
    requires d < 3 && i <= |s|
    requires forall j :: 0 <= j < i ==> Inside(s[j], d, lo, hi)
    ensures var r := Depart(s, i, d, lo, hi);
            && multiset(r.0) + multiset(r.1) == multiset(s)
            && (forall p :: p in r.0 ==> Inside(p, d, lo, hi))
            && (forall p :: p in r.1 ==> !Inside(p, d, lo, hi))
    decreases |s| - i
  {
    if i < |s| {
      if Inside(s[i], d, lo, hi) {
        DepartSplits(s, i + 1, d, lo, hi);
      } else {
        var s' := s[i := s[|s| - 1]][..|s| - 1];
        FillHole(s, i);
        DepartSplits(s', i, d, lo, hi);
        var r := Depart(s', i, d, lo, hi);
        assert multiset([s[i]] + r.1) == multiset{s[i]} + multiset(r.1);
      }
    }
  }

  lemma {:induction false} AcceptCount(s: seq<Particle>, d: nat, lo: real, hi: real, p: Particle)
    requires d < 3
    ensures multiset(Accept(s, d, lo, hi))[p] == if Inside(p, d, lo, hi) then multiset(s)[p] else 0
  {
    if s != [] {
      DropLast(s);
      AcceptCount(s[..|s| - 1], d, lo, hi, p);
    }
  }

  /** The processor grid and every process's atoms when exchange is called. */
  datatype Run = Run(ax: V3<Axis>, init: Proc -> seq<Particle>) {

    ghost predicate Valid() {
      ax.x.Valid() && ax.y.Valid() && ax.z.Valid()
    }

    /** The atoms of process c once the dimensions below d have been exchanged. */
    function Local(d: nat, c: Proc): seq<Particle>
      requires Valid() && d <= 3 && InGrid(ax, c)
      decreases d, 0
    {
      if d == 0 then Pbc(ax, init(c))
      else if ax.At(d - 1).procs == 1 then Local(d - 1, c)
      else
        Parted(d - 1, c).0 + Taken(d - 1, c, RightOf(ax, d - 1, c)) +
        if ax.At(d - 1).procs > 2 then Taken(d - 1, c, LeftOf(ax, d - 1, c)) else []
    }

    /** What c keeps and what it puts in buf_send in dimension d. */
    function Parted(d: nat, c: Proc): (seq<Particle>, seq<Particle>)
      requires Valid() && d < 3 && InGrid(ax, c)
      decreases d, 1
    {
      Depart(Local(d, c), 0, d, Lo(d, c), Hi(d, c))
    }

    /** What c unpacks from the buffer of its neighbour `from`. */
    function Taken(d: nat, c: Proc, from: Proc): seq<Particle>
      requires Valid() && d < 3 && InGrid(ax, c) && InGrid(ax, from)
      decreases d, 2
    {
      Accept(Parted(d, from).1, d, Lo(d, c), Hi(d, c))
    }

    function Lo(d: nat, c: Proc): real
      requires Valid() && d < 3
    {
      ax.At(d).Edge(c.At(d))
    }

    function Hi(d: nat, c: Proc): real
      requires Valid() && d < 3
    {
      ax.At(d).Edge(c.At(d) + 1)
    }

    /** Atom p is in dimension d in the box of c. */
    predicate Here(d: nat, c: Proc, p: Particle)
      requires Valid() && d < 3
    {
      Inside(p, d, Lo(d, c), Hi(d, c))
    }

    /** Atom p is in dimension d in the box of c or of a direct neighbour. */
    predicate Near(d: nat, c: Proc, p: Particle)
      requires Valid() && d < 3 && InGrid(ax, c)
    {
      Here(d, c, p) ||
      (ax.At(d).procs > 1 && (Here(d, LeftOf(ax, d, c), p) || Here(d, RightOf(ax, d, c), p)))
    }

    /** How often c holds p before dimension d is exchanged. */
    function Amount(d: nat, p: Particle): Proc -> real
      requires Valid() && d <= 3
    {
      (c: Proc) => if InGrid(ax, c) then multiset(Local(d, c))[p] as real else 0.0
    }
  }

  /** What a process holds after one dimension: what was there and in the box,
      and what a neighbour held and it can claim. */
  lemma StepCount(r: Run, d: nat, c: Proc, p: Particle)
    requires r.Valid() && d < 3 && InGrid(r.ax, c) && r.ax.At(d).procs > 1
    ensures var R, L := RightOf(r.ax, d, c), LeftOf(r.ax, d, c);
            multiset(r.Local(d + 1, c))[p] ==
            if !r.Here(d, c, p) then 0 else
              multiset(r.Local(d, c))[p]
              + (if r.Here(d, R, p) then 0 else multiset(r.Local(d, R))[p])
              + (if r.ax.At(d).procs == 2 || r.Here(d, L, p) then 0 else multiset(r.Local(d, L))[p])
  {
    hide Axis.Edge;
    hide Axis.Valid;
    hide Run.Parted;
    hide Accept;
    hide Inside;
    hide Pbc;
    var R, L := RightOf(r.ax, d, c), LeftOf(r.ax, d, c);
    PartedCount(r, d, c, p);
    PartedCount(r, d, R, p);
    PartedCount(r, d, L, p);
    AcceptCount(r.Parted(d, R).1, d, r.Lo(d, c), r.Hi(d, c), p);
    AcceptCount(r.Parted(d, L).1, d, r.Lo(d, c), r.Hi(d, c), p);
  }

  lemma PartedCount(r: Run, d: nat, c: Proc, p: Particle)
    requires r.Valid() && d < 3 && InGrid(r.ax, c)
    ensures multiset(r.Parted(d, c).0)[p] == if r.Here(d, c, p) then multiset(r.Local(d, c))[p] else 0
    ensures multiset(r.Parted(d, c).1)[p] == if r.Here(d, c, p) then 0 else multiset(r.Local(d, c))[p]
  {
    DepartSplits(r.Local(d, c), 0, d, r.Lo(d, c), r.Hi(d, c));
    var q := r.Parted(d, c);
    assert p in q.0 <==> multiset(q.0)[p] > 0;
    assert p in q.1 <==> multiset(q.1)[p] > 0;
  }

  /** A coordinate lies in at most one box. */
  lemma OneBox(r: Run, d: nat, c: Proc, c': Proc, p: Particle)
    requires r.Valid() && d < 3 && r.Here(d, c, p) && r.Here(d, c', p)
    ensures c.At(d) == c'.At(d)
  {
    var a := r.ax.At(d);
    if c.At(d) < c'.At(d) {
      if c.At(d) + 1 < c'.At(d) { EdgeMono(a, c.At(d) + 1, c'.At(d)); }
    } else if c'.At(d) < c.At(d) {
      if c'.At(d) + 1 < c.At(d) { EdgeMono(a, c'.At(d) + 1, c.At(d)); }
    }
    hide Axis.Edge;
  }

  /** Of what was held before, exactly the copies near enough survive. */
  ghost function Survivors(r: Run, d: nat, p: Particle): Proc -> real
    requires r.Valid() && d < 3
  {
    (c: Proc) => if InGrid(r.ax, c) && r.Near(d, c, p) then r.Amount(d, p)(c) else 0.0
  }

  /** c keeps its copies of p. */
  ghost function Kept(r: Run, d: nat, p: Particle): Proc -> real
    requires r.Valid() && d < 3
  {
    (c: Proc) => if InGrid(r.ax, c) && r.Here(d, c, p) then r.Amount(d, p)(c) else 0.0
  }

  /** c hands its copies of p to its left, or right, neighbour. */
  ghost function Handed(r: Run, d: nat, p: Particle, left: bool): Proc -> real
    requires r.Valid() && d < 3
  {
    (c: Proc) =>
      if InGrid(r.ax, c) && !r.Here(d, c, p) && (left || r.ax.At(d).procs > 2)
         && r.Here(d, if left then LeftOf(r.ax, d, c) else RightOf(r.ax, d, c), p)
      then r.Amount(d, p)(c) else 0.0
  }

  /** c obtains what its right, or left, neighbour hands over. */
  ghost function Obtained(r: Run, d: nat, p: Particle, left: bool): Proc -> real
    requires r.Valid() && d < 3
  {
    (c: Proc) =>
      if InGrid(r.ax, c) then Handed(r, d, p, left)(if left then RightOf(r.ax, d, c) else LeftOf(r.ax, d, c)) else 0.0
  }

  lemma ObtainedCount(r: Run, d: nat, p: Particle, c: Proc, left: bool)
    requires r.Valid() && d < 3 && r.ax.At(d).procs > 1 && InGrid(r.ax, c)
    ensures var q := if left then RightOf(r.ax, d, c) else LeftOf(r.ax, d, c);
            Obtained(r, d, p, left)(c) ==
            if r.Here(d, c, p) && !r.Here(d, q, p) && (left || r.ax.At(d).procs > 2) then multiset(r.Local(d, q))[p] as real else 0.0
  {
    hide Axis.Edge;
    hide Run.Local;
    hide Run.Here;
    var q := if left then RightOf(r.ax, d, c) else LeftOf(r.ax, d, c);
    assert InGrid(r.ax, q);
    assert (if left then LeftOf(r.ax, d, q) else RightOf(r.ax, d, q)) == c;
    assert Obtained(r, d, p, left)(c) == Handed(r, d, p, left)(q);
    assert r.Amount(d, p)(q) == multiset(r.Local(d, q))[p] as real;
    assert Handed(r, d, p, left)(q) == if r.Here(d, c, p) && !r.Here(d, q, p) && (left || r.ax.At(d).procs > 2) then r.Amount(d, p)(q) else 0.0;
  }

  lemma AfterParts(r: Run, d: nat, p: Particle, c: Proc)
    requires r.Valid() && d < 3 && r.ax.At(d).procs > 1 && InGrid(r.ax, c)
    ensures r.Amount(d + 1, p)(c) == Kept(r, d, p)(c) + Obtained(r, d, p, true)(c) + Obtained(r, d, p, false)(c)
  {
    hide Run.Local;
    hide Run.Here;
    hide Run.Near;
    hide Obtained;
    hide Axis.Edge;
    hide LeftOf;
    hide RightOf;
    StepCount(r, d, c, p);
    ObtainedCount(r, d, p, c, true);
    ObtainedCount(r, d, p, c, false);
    assert r.Amount(d + 1, p)(c) == multiset(r.Local(d + 1, c))[p] as real;
    assert r.Amount(d, p)(c) == multiset(r.Local(d, c))[p] as real;
    assert Kept(r, d, p)(c) == if r.Here(d, c, p) then multiset(r.Local(d, c))[p] as real else 0.0;
  }

  lemma BeforeParts(r: Run, d: nat, p: Particle, c: Proc)
    requires r.Valid() && d < 3 && r.ax.At(d).procs > 1 && InGrid(r.ax, c)
    ensures Survivors(r, d, p)(c) == Kept(r, d, p)(c) + Handed(r, d, p, true)(c) + Handed(r, d, p, false)(c)
  {
    hide Run.Local;
    hide Run.Here;
    hide Run.Near;
    NearOnce(r, d, c, p);
  }

  lemma StepTotal(r: Run, d: nat, p: Particle)
    requires r.Valid() && d < 3 && r.ax.At(d).procs > 1
    ensures Total(r.ax, r.Amount(d + 1, p)) == Total(r.ax, Survivors(r, d, p))
  {
    hide Run.Amount;
    hide Survivors;
    var ax := r.ax;
    var K, HL, HR := Kept(r, d, p), Handed(r, d, p, true), Handed(r, d, p, false);
    var OL, OR := Obtained(r, d, p, true), Obtained(r, d, p, false);
    var KO, KH := (c: Proc) => K(c) + OL(c), (c: Proc) => K(c) + HL(c);
    forall c | InGrid(ax, c)
      ensures r.Amount(d + 1, p)(c) == KO(c) + OR(c)
      ensures Survivors(r, d, p)(c) == KH(c) + HR(c)
    {
      AfterParts(r, d, p, c);
      BeforeParts(r, d, p, c);
    }
    TotalAdd(ax, K, OL, KO);
    TotalAdd(ax, KO, OR, r.Amount(d + 1, p));
    TotalAdd(ax, K, HL, KH);
    TotalAdd(ax, KH, HR, Survivors(r, d, p));
    TotalRight(ax, d, OL, HL);
    TotalLeft(ax, d, OR, HR);
  }

  /** An atom that is near is claimed by one process only. */
  lemma NearOnce(r: Run, d: nat, c: Proc, p: Particle)
    requires r.Valid() && d < 3 && r.ax.At(d).procs > 1 && InGrid(r.ax, c)
    ensures var R, L := RightOf(r.ax, d, c), LeftOf(r.ax, d, c);
            && (r.Near(d, c, p) <==> r.Here(d, c, p) || r.Here(d, R, p) || r.Here(d, L, p))
            && (r.Here(d, L, p) && r.Here(d, R, p) ==> r.ax.At(d).procs == 2)
            && (r.ax.At(d).procs == 2 ==> L == R)
  {
    var R, L := RightOf(r.ax, d, c), LeftOf(r.ax, d, c);
    if r.Here(d, L, p) && r.Here(d, R, p) { OneBox(r, d, L, R, p); }
    hide Axis.Edge;
  }

  /** Atom p of c is claimed by some process when dimension d is exchanged. */
  ghost predicate Claimed(r: Run, d: nat, c: Proc, p: Particle)
    requires r.Valid() && d < 3 && InGrid(r.ax, c)
  {
    r.ax.At(d).procs == 1 || r.Near(d, c, p)
  }

  /** One dimension keeps the number of copies of p exactly if every process that
      holds one is in p's box or next to it; otherwise p gets lost. */
  lemma StepConserves(r: Run, d: nat, p: Particle)
    requires r.Valid() && d < 3
    ensures Total(r.ax, r.Amount(d + 1, p)) <= Total(r.ax, r.Amount(d, p))
    ensures Total(r.ax, r.Amount(d + 1, p)) == Total(r.ax, r.Amount(d, p)) <==>
            forall c | InGrid(r.ax, c) && p in r.Local(d, c) :: Claimed(r, d, c, p)
  {
    if r.ax.At(d).procs == 1 {
      TotalEq(r.ax, r.Amount(d + 1, p), r.Amount(d, p));
    } else {
      StepTotal(r, d, p);
      TotalLe(r.ax, Survivors(r, d, p), r.Amount(d, p));
      if w :| InGrid(r.ax, w) && p in r.Local(d, w) && !Claimed(r, d, w, p) {
        HeldPositive(r, d, w, p);
        TotalLess(r.ax, Survivors(r, d, p), r.Amount(d, p), w);
      } else {
        forall c | InGrid(r.ax, c) ensures Survivors(r, d, p)(c) == r.Amount(d, p)(c) {
          HeldPositive(r, d, c, p);
        }
        TotalEq(r.ax, Survivors(r, d, p), r.Amount(d, p));
      }
    }
  }

  lemma HeldPositive(r: Run, d: nat, c: Proc, p: Particle)
    requires r.Valid() && d <= 3 && InGrid(r.ax, c)
    ensures p in r.Local(d, c) <==> r.Amount(d, p)(c) > 0.0
    ensures r.Amount(d, p)(c) >= 0.0
  {
    assert p in r.Local(d, c) <==> multiset(r.Local(d, c))[p] > 0;
  }

  /** Where an atom held after dimension d - 1 was at the start. */
  lemma {:induction false} Origin(r: Run, d: nat, c: Proc, p: Particle) returns (o: Proc)
    requires r.Valid() && d <= 3 && InGrid(r.ax, c) && p in r.Local(d, c)
    ensures InGrid(r.ax, o) && p in r.Local(0, o)
    ensures forall e | d <= e < 3 :: o.At(e) == c.At(e)
    ensures forall e | 0 <= e < d && r.ax.At(e).procs > 1 :: r.Here(e, c, p)
    decreases d
  {
    if d == 0 {
      o := c;
    } else if r.ax.At(d - 1).procs == 1 {
      assert r.Local(d, c) == r.Local(d - 1, c);
      hide *;
      o := Origin(r, d - 1, c, p);
    } else {
      assert r.ax.At(d - 1).procs > 1;
      hide *;
      var b := HeldBefore(r, d - 1, c, p);
      SameRow(r, d - 1, b, c, p);
      o := Origin(r, d - 1, b, p);
    }
  }

  lemma SameRow(r: Run, d: nat, b: Proc, c: Proc, p: Particle)
    requires r.Valid() && d < 3 && b == c.Set(d, b.At(d))
    ensures forall e | 0 <= e < 3 && e != d :: b.At(e) == c.At(e)
    ensures forall e | 0 <= e < 3 && e != d :: r.Here(e, b, p) <==> r.Here(e, c, p)
  {
    hide Axis.Edge;
    forall e | 0 <= e < 3 && e != d ensures b.At(e) == c.At(e) && (r.Here(e, b, p) <==> r.Here(e, c, p)) {}
  }

  lemma HeldBefore(r: Run, d: nat, c: Proc, p: Particle) returns (b: Proc)
    requires r.Valid() && d < 3 && InGrid(r.ax, c) && r.ax.At(d).procs > 1 && p in r.Local(d + 1, c)
    ensures InGrid(r.ax, b) && p in r.Local(d, b) && r.Here(d, c, p)
    ensures b == c.Set(d, b.At(d))
  {
    var R, L := RightOf(r.ax, d, c), LeftOf(r.ax, d, c);
    hide Axis.Edge;
    hide Run.Local;
    StepCount(r, d, c, p);
    assert multiset(r.Local(d + 1, c))[p] > 0;
    b := if p in r.Local(d, c) then c else if p in r.Local(d, R) then R else L;
    assert multiset(r.Local(d, b))[p] > 0;
  }

  /** The process that claims an atom c holds. */
  lemma Claimant(r: Run, d: nat, c: Proc, p: Particle) returns (n: Proc)
    requires r.Valid() && d < 3 && InGrid(r.ax, c) && r.Near(d, c, p) && r.ax.At(d).procs > 1
    ensures InGrid(r.ax, n) && n == c.Set(d, n.At(d)) && r.Here(d, n, p)
    ensures n == c || (!r.Here(d, c, p) && (c == RightOf(r.ax, d, n) || (c == LeftOf(r.ax, d, n) && r.ax.At(d).procs > 2)))
  {
    hide Axis.Edge;
    hide Run.Here;
    var R, L := RightOf(r.ax, d, c), LeftOf(r.ax, d, c);
    n := if r.Here(d, c, p) then c else if r.Here(d, L, p) then L else R;
    NearOnce(r, d, c, p);
    assert RightOf(r.ax, d, L) == c && LeftOf(r.ax, d, R) == c;
  }

  /** A claimed atom is held by some process of the same row afterwards. */
  lemma HeldAfter(r: Run, d: nat, c: Proc, p: Particle) returns (n: Proc)
    requires r.Valid() && d < 3 && InGrid(r.ax, c) && p in r.Local(d, c) && Claimed(r, d, c, p)
    ensures InGrid(r.ax, n) && p in r.Local(d + 1, n) && n == c.Set(d, n.At(d))
  {
    if r.ax.At(d).procs == 1 {
      n := c;
    } else {
      assert r.ax.At(d).procs > 1 && r.Near(d, c, p);
      assert multiset(r.Local(d, c))[p] > 0;
      hide *;
      n := Claimant(r, d, c, p);
      StepCount(r, d, n, p);
      assert multiset(r.Local(d + 1, n))[p] > 0;
    }
  }

  lemma ClaimedRow(r: Run, d: nat, c: Proc, o: Proc, p: Particle)
    requires r.Valid() && d < 3 && InGrid(r.ax, c) && InGrid(r.ax, o) && c.At(d) == o.At(d)
    ensures Claimed(r, d, c, p) <==> Claimed(r, d, o, p)
  {
    hide Axis.Edge;
    var R, L, R', L' := RightOf(r.ax, d, c), LeftOf(r.ax, d, c), RightOf(r.ax, d, o), LeftOf(r.ax, d, o);
    assert R.At(d) == R'.At(d) && L.At(d) == L'.At(d);
    assert r.Here(d, R, p) == r.Here(d, R', p) && r.Here(d, L, p) == r.Here(d, L', p);
    assert r.Here(d, c, p) == r.Here(d, o, p);
    hide Run.Here;
    hide RightOf;
    hide LeftOf;
  }

  /** Exchange neither loses nor duplicates p if and only if, in every dimension,
      every process that holds p at the start is in p's box or next to it. */
  lemma ExchangeConserves(r: Run, p: Particle)
    requires r.Valid()
    ensures Total(r.ax, r.Amount(3, p)) == Total(r.ax, r.Amount(0, p)) <==>
            forall c, d | InGrid(r.ax, c) && 0 <= d < 3 && p in r.Local(0, c) :: Claimed(r, d, c, p)
  {
    hide Run.Amount;
    hide Run.Local;
    hide Claimed;
    StepConserves(r, 0, p);
    StepConserves(r, 1, p);
    StepConserves(r, 2, p);
    if Total(r.ax, r.Amount(3, p)) == Total(r.ax, r.Amount(0, p)) {
      forall c, d | InGrid(r.ax, c) && 0 <= d < 3 && p in r.Local(0, c) ensures Claimed(r, d, c, p) {
        var n := HeldAfter(r, 0, c, p);
        var m := HeldAfter(r, 1, n, p);
        ClaimedRow(r, 1, n, c, p);
        ClaimedRow(r, 2, m, c, p);
      }
    }
    if forall c, d | InGrid(r.ax, c) && 0 <= d < 3 && p in r.Local(0, c) :: Claimed(r, d, c, p) {
      forall c, d: nat | InGrid(r.ax, c) && d < 3 && p in r.Local(d, c) ensures Claimed(r, d, c, p) {
        var o := Origin(r, d, c, p);
        ClaimedRow(r, d, c, o, p);
      }
    }
  }

  /** Four processes in a row; the first holds an atom of the third one's box. */
  const STRAY := Particle(V3(2.5, 0.5, 0.5), V3(0.0, 0.0, 0.0), 0)

  function Strayed(): Run { Run(V3(Axis(4, 4.0), Axis(1, 1.0), Axis(1, 1.0)), (c: Proc) => if c.x == 0 then [STRAY] else []) }

  lemma StrayedFar()
    ensures var r, c := Strayed(), V3(0, 0, 0); r.Valid() && InGrid(r.ax, c) && STRAY in r.Local(0, c) && !Claimed(r, 0, c, STRAY)
  {
    assert Strayed().Local(0, V3(0, 0, 0))[0] == STRAY;
  }

  lemma LostExample()
    ensures var r := Strayed(); r.Valid() && Total(r.ax, r.Amount(3, STRAY)) < Total(r.ax, r.Amount(0, STRAY))
  {
    hide *;
    var r := Strayed();
    StrayedFar();
    ExchangeConserves(r, STRAY);
    StepConserves(r, 0, STRAY);
    StepConserves(r, 1, STRAY);
    StepConserves(r, 2, STRAY);
  }

  /** No coordinate is more than one period outside the box. */
  ghost predicate OnePeriodOut(r: Run)
    requires r.Valid()
  {
    forall c, i, d | InGrid(r.ax, c) && 0 <= i < |r.init(c)| && 0 <= d < 3 ::
      -r.ax.At(d).prd <= r.init(c)[i].x.At(d) < 2.0 * r.ax.At(d).prd
  }

  lemma WrappedHome(r: Run, o: Proc, p: Particle, d: nat)
    requires r.Valid() && OnePeriodOut(r) && InGrid(r.ax, o) && p in r.Local(0, o) && d < 3
    ensures 0.0 <= p.x.At(d) < r.ax.At(d).prd
  {
    var i :| 0 <= i < |r.Local(0, o)| && r.Local(0, o)[i] == p;
    var q := r.init(o)[i];
    assert p == PbcOne(r.ax, q);
    assert -r.ax.At(d).prd <= q.x.At(d) < 2.0 * r.ax.At(d).prd;
    WrapHome(q.x.At(d), r.ax.At(d).prd);
    assert p.x.At(d) == Wrap(q.x.At(d), r.ax.At(d).prd);
  }

  /** After exchange every atom lies in the box of the process that holds it. */
  lemma ExchangePlaces(r: Run, c: Proc, p: Particle, d: nat)
    requires r.Valid() && OnePeriodOut(r) && InGrid(r.ax, c) && p in r.Local(3, c) && d < 3
    ensures r.Here(d, c, p)
  {
    hide Run.Local;
    hide OnePeriodOut;
    var o := Origin(r, 3, c, p);
    if r.ax.At(d).procs == 1 {
      WrappedHome(r, o, p, d);
      EdgeEnds(r.ax.At(d));
      assert c.At(d) == 0;
    }
  }
}
