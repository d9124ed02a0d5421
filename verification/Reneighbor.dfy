/** One reneighbouring of the whole machine, exchange, then borders, then build
    on every process, against all atoms and all period shifts. */
module Reneighbor {
  import opened Vec3
  import opened Grid
  import opened Sums
  import opened Exchange
  import opened Borders
  import opened Bins
  import opened Stencil
  import opened Lists
  import opened Neighbor

  const ORIGIN := V3(0, 0, 0)

  /** The atoms as the processes hold them once pbc has run are those of part, each
      held by one process, each under its own name. */
  ghost predicate Named(r: Run, part: map<int, Particle>)
    requires r.Valid()
  {
    && (forall id | id in part :: part[id].id == id)
    && forall p: Particle :: Total(r.ax, r.Amount(0, p)) == if p.id in part && part[p.id] == p then 1.0 else 0.0
  }

  /** No atom is farther than one box from the process that holds it. */
  ghost predicate Reachable(r: Run)
    requires r.Valid()
  {
    forall c, p, d | InGrid(r.ax, c) && 0 <= d < 3 && p in r.Local(0, c) :: Claimed(r, d, c, p)
  }

  ghost predicate Ready(r: Run, part: map<int, Particle>) {
    r.Valid() && OnePeriodOut(r) && Reachable(r) && Named(r, part)
  }

  /** Where each atom is. */
  function Base(part: map<int, Particle>): (base: map<int, Vec>)
    ensures base.Keys == part.Keys && forall id | id in part :: base[id] == part[id].x
  {
    map id | id in part :: part[id].x
  }

  /** Owned atoms as the unshifted images of themselves. */
  function Own(s: seq<Particle>): (o: seq<Copy>)
    ensures |o| == |s| && forall i :: 0 <= i < |s| ==> o[i] == Copy(s[i].x, Tag(s[i].id, ORIGIN))
  {
    seq(|s|, i requires 0 <= i < |s| => Copy(s[i].x, Tag(s[i].id, ORIGIN)))
  }

  /** What borders finds when exchange has returned. */
  ghost function After(r: Run, cut: real): (w: World)
    requires r.Valid()
    ensures w.ax == r.ax && w.cut == cut && forall c | InGrid(r.ax, c) :: w.own(c) == Own(r.Local(3, c))
  {
    World(r.ax, cut, OwnOf(r))
  }

  ghost function OwnOf(r: Run): Proc -> seq<Copy>
    requires r.Valid()
  {
    (c: Proc) => if InGrid(r.ax, c) then Own(r.Local(3, c)) else []
  }

  /** What a process holds after exchange is an atom of part. */
  lemma HeldNamed(r: Run, part: map<int, Particle>, c: Proc, p: Particle)
    requires Ready(r, part) && InGrid(r.ax, c) && p in r.Local(3, c)
    ensures p.id in part && part[p.id] == p
  {
    hide Run.Local;
    hide Run.Amount;
    hide Claimed;
    hide OnePeriodOut;
    ExchangeConserves(r, p);
    var zero := (c: Proc) => 0.0;
    forall e | InGrid(r.ax, e) ensures zero(e) <= r.Amount(3, p)(e) {
      HeldPositive(r, 3, e, p);
    }
    HeldPositive(r, 3, c, p);
    TotalLess(r.ax, zero, r.Amount(3, p), c);
    TotalPoint(r.ax, zero, c);
  }

  /** After exchange q is in the box of one process, which holds it once. */
  lemma Holder(r: Run, part: map<int, Particle>, q: Particle) returns (w: Proc)
    requires Ready(r, part) && q.id in part && part[q.id] == q
    ensures InGrid(r.ax, w) && multiset(r.Local(3, w))[q] == 1
    ensures r.Here(0, w, q) && r.Here(1, w, q) && r.Here(2, w, q)
    ensures forall c | InGrid(r.ax, c) && c != w :: multiset(r.Local(3, c))[q] == 0
    ensures forall c | InGrid(r.ax, c) && r.Here(0, c, q) && r.Here(1, c, q) && r.Here(2, c, q) :: c == w
  {
    hide Run.Local;
    hide Run.Here;
    hide Claimed;
    hide OnePeriodOut;
    ExchangeConserves(r, q);
    assert Total(r.ax, r.Amount(3, q)) == 1.0;
    if !exists c :: InGrid(r.ax, c) && q in r.Local(3, c) {
      forall c ensures r.Amount(3, q)(c) == 0.0 {}
      NoHolder(r, q);
    }
    w :| InGrid(r.ax, w) && q in r.Local(3, w);
    HereAll(r, w, q);
    forall c | InGrid(r.ax, c) && r.Here(0, c, q) && r.Here(1, c, q) && r.Here(2, c, q) ensures c == w {
      SameBox(r, c, w, q);
    }
    forall c | InGrid(r.ax, c) && c != w ensures multiset(r.Local(3, c))[q] == 0 {
      if q in r.Local(3, c) { HereAll(r, c, q); }
    }
    TotalPoint(r.ax, r.Amount(3, q), w);
  }

  lemma NoHolder(r: Run, q: Particle)
    requires r.Valid() && forall c :: r.Amount(3, q)(c) == 0.0
    ensures Total(r.ax, r.Amount(3, q)) == 0.0
  {
    TotalPoint(r.ax, r.Amount(3, q), V3(0, 0, 0));
  }

  lemma HereAll(r: Run, c: Proc, p: Particle)
    requires r.Valid() && OnePeriodOut(r) && InGrid(r.ax, c) && p in r.Local(3, c)
    ensures r.Here(0, c, p) && r.Here(1, c, p) && r.Here(2, c, p)
  {
    hide *;
    ExchangePlaces(r, c, p, 0);
    ExchangePlaces(r, c, p, 1);
    ExchangePlaces(r, c, p, 2);
  }

  lemma SameBox(r: Run, c: Proc, w: Proc, p: Particle)
    requires r.Valid()
    requires r.Here(0, c, p) && r.Here(1, c, p) && r.Here(2, c, p)
    requires r.Here(0, w, p) && r.Here(1, w, p) && r.Here(2, w, p)
    ensures c == w
  {
    hide Run.Here;
    OneBox(r, 0, c, w, p);
    OneBox(r, 1, c, w, p);
    OneBox(r, 2, c, w, p);
  }

  /** Own atoms named id, if all are q, are counted as copies of q. */
  lemma {:induction false} OwnCount(s: seq<Particle>, q: Particle, t: Tag)
    requires forall p | p in s && p.id == t.id :: p == q
    requires t.k == ORIGIN && q.id == t.id
    ensures Count(Own(s), t) == multiset(s)[q]
  {
    if s != [] {
      var n := |s| - 1;
      assert s == s[..n] + [s[n]];
      assert Own(s)[..n] == Own(s[..n]);
      OwnCount(s[..n], q, t);
    }
  }

  lemma {:induction false} OwnNone(s: seq<Particle>, t: Tag)
    requires t.k != ORIGIN || forall p | p in s :: p.id != t.id
    ensures Count(Own(s), t) == 0
  {
    if s != [] {
      var n := |s| - 1;
      assert Own(s)[..n] == Own(s[..n]);
      OwnNone(s[..n], t);
    }
  }

  lemma PosUnshifted(ax: V3<Axis>, base: map<int, Vec>, id: int)
    requires id in base
    ensures Pos(ax, base, Tag(id, ORIGIN)) == base[id]
  {}

  /** A shifted image of an atom of the periodic box lies outside it. */
  lemma ShiftedOut(a: Axis, x: real, k: int, b: nat)
    requires a.Valid() && b < a.procs && 0.0 <= x < a.prd
    requires a.Edge(b) <= x + Mul(k, a.prd) < a.Edge(b + 1)
    ensures k == 0
  {
    EdgeEnds(a);
    if b > 0 { EdgeMono(a, 0, b); }
    if b + 1 < a.procs { EdgeMono(a, b + 1, a.procs); }
    MulMono(k, 0, a.prd);
    MulMono(1, k, a.prd);
    MulMono(k, -1, a.prd);
    assert Mul(0, a.prd) == 0.0 && Mul(1, a.prd) == a.prd && Mul(-1, a.prd) == -a.prd;
    hide Axis.Edge;
    hide Mul;
  }

  lemma InPeriod(r: Run, c: Proc, p: Particle, d: nat)
    requires r.Valid() && d < 3 && InGrid(r.ax, c) && r.Here(d, c, p)
    ensures 0.0 <= p.x.At(d) < r.ax.At(d).prd
  {
    var a, b := r.ax.At(d), c.At(d);
    EdgeEnds(a);
    if b > 0 { EdgeMono(a, 0, b); }
    if b + 1 < a.procs { EdgeMono(a, b + 1, a.procs); }
    hide Axis.Edge;
  }

  /** The region a process starts borders with is its box. */
  lemma BoxRegion(w: World, base: map<int, Vec>, c: Proc, t: Tag)
    requires w.Valid() && InGrid(w.ax, c) && t.id in base
    ensures InRegion(w, base, 0, c, w.ax.x.Edge(c.x), w.ax.x.Edge(c.x + 1), t) <==>
            var p := Pos(w.ax, base, t);
            && w.ax.x.Edge(c.x) <= p.x < w.ax.x.Edge(c.x + 1)
            && w.ax.y.Edge(c.y) <= p.y < w.ax.y.Edge(c.y + 1)
            && w.ax.z.Edge(c.z) <= p.z < w.ax.z.Edge(c.z + 1)
  {
    hide Axis.Edge;
    hide Pos;
  }

  /** An image of q is in the box of c exactly if it is q itself and c holds it. */
  lemma ImageInBox(r: Run, part: map<int, Particle>, w: Proc, c: Proc, t: Tag)
    requires r.Valid() && InGrid(r.ax, w) && InGrid(r.ax, c) && t.id in part
    requires r.Here(0, w, part[t.id]) && r.Here(1, w, part[t.id]) && r.Here(2, w, part[t.id])
    ensures var p := Pos(r.ax, Base(part), t);
            (&& r.ax.x.Edge(c.x) <= p.x < r.ax.x.Edge(c.x + 1)
             && r.ax.y.Edge(c.y) <= p.y < r.ax.y.Edge(c.y + 1)
             && r.ax.z.Edge(c.z) <= p.z < r.ax.z.Edge(c.z + 1)) <==>
            t.k == ORIGIN && r.Here(0, c, part[t.id]) && r.Here(1, c, part[t.id]) && r.Here(2, c, part[t.id])
  {
    var q, p := part[t.id], Pos(r.ax, Base(part), t);
    InPeriod(r, w, q, 0);
    InPeriod(r, w, q, 1);
    InPeriod(r, w, q, 2);
    if t.k == ORIGIN {
      PosUnshifted(r.ax, Base(part), t.id);
      assert p == q.x;
      hide Axis.Edge;
      hide Pos;
    } else {
      hide Axis.Edge;
      hide Mul;
      hide Run.Here;
      if r.ax.x.Edge(c.x) <= p.x < r.ax.x.Edge(c.x + 1) { ShiftedOut(r.ax.x, q.x.x, t.k.x, c.x); }
      if r.ax.y.Edge(c.y) <= p.y < r.ax.y.Edge(c.y + 1) { ShiftedOut(r.ax.y, q.x.y, t.k.y, c.y); }
      if r.ax.z.Edge(c.z) <= p.z < r.ax.z.Edge(c.z + 1) { ShiftedOut(r.ax.z, q.x.z, t.k.z, c.z); }
    }
  }

  /** How often image t is among the atoms c owns after exchange. */
  lemma OwnAfter(r: Run, part: map<int, Particle>, cut: real, c: Proc, t: Tag)
    requires Ready(r, part) && cut >= 0.0 && InGrid(r.ax, c)
    ensures After(r, cut).Valid()
    ensures var w := After(r, cut);
            Count(w.own(c), t) == Once(InRegion(w, Base(part), 0, c, w.ax.x.Edge(c.x), w.ax.x.Edge(c.x + 1), t))
  {
    var w, s := After(r, cut), r.Local(3, c);
    assert r.Valid() && w.Valid() && w.own(c) == Own(s);
    hide *;
    forall p | p in s ensures p.id in part && part[p.id] == p {
      HeldNamed(r, part, c, p);
    }
    if t.id !in part {
      OwnNone(s, t);
      NotInRegion(w, Base(part), c, t);
    } else {
      assert part[t.id].id == t.id by { NamedId(r, part, t.id); }
      var h := Holder(r, part, part[t.id]);
      BoxRegion(w, Base(part), c, t);
      ImageInBox(r, part, h, c, t);
      if t.k == ORIGIN {
        OwnCount(s, part[t.id], t);
        OnceIs(InRegion(w, Base(part), 0, c, w.ax.x.Edge(c.x), w.ax.x.Edge(c.x + 1), t));
      } else {
        OwnNone(s, t);
        OnceIs(InRegion(w, Base(part), 0, c, w.ax.x.Edge(c.x), w.ax.x.Edge(c.x + 1), t));
      }
    }
  }

  lemma OnceIs(b: bool)
    ensures Once(b) == if b then 1 else 0
  {}

  lemma NamedId(r: Run, part: map<int, Particle>, id: int)
    requires Ready(r, part) && id in part
    ensures part[id].id == id
  {}

  lemma NotInRegion(w: World, base: map<int, Vec>, c: Proc, t: Tag)
    requires w.Valid() && InGrid(w.ax, c) && t.id !in base
    ensures Once(InRegion(w, base, 0, c, w.ax.x.Edge(c.x), w.ax.x.Edge(c.x + 1), t)) == 0
  {}

  /** Exchange hands borders what it relies on. */
  lemma OwnedAfter(r: Run, part: map<int, Particle>, cut: real)
    requires Ready(r, part) && cut >= 0.0
    ensures After(r, cut).Valid() && Owned(After(r, cut), Base(part))
  {
    var w, base := After(r, cut), Base(part);
    hide Ready;
    hide Run.Local;
    hide InRegion;
    hide Axis.Edge;
    assert w.Valid() by { OwnAfter(r, part, cut, V3(0, 0, 0), Tag(0, ORIGIN)); }
    forall c: Proc | InGrid(w.ax, c)
      ensures Placed(w.ax, base, w.own(c))
      ensures forall t: Tag :: Count(w.own(c), t) == Once(InRegion(w, base, 0, c, w.ax.x.Edge(c.x), w.ax.x.Edge(c.x + 1), t))
    {
      OwnPlaced(r, part, cut, c);
      forall t: Tag ensures Count(w.own(c), t) == Once(InRegion(w, base, 0, c, w.ax.x.Edge(c.x), w.ax.x.Edge(c.x + 1), t)) {
        OwnAfter(r, part, cut, c, t);
      }
    }
  }

  lemma PlacedFrom(ax: V3<Axis>, base: map<int, Vec>, s: seq<Copy>)
    requires forall i :: 0 <= i < |s| ==> s[i].tag.id in base && s[i].x == Pos(ax, base, s[i].tag)
    ensures Placed(ax, base, s)
  {
    hide Pos;
  }

  lemma OwnPlaced(r: Run, part: map<int, Particle>, cut: real, c: Proc)
    requires Ready(r, part) && InGrid(r.ax, c)
    ensures Placed(r.ax, Base(part), Own(r.Local(3, c)))
  {
    var s := r.Local(3, c);
    hide Ready;
    hide Run.Local;
    hide Pos;
    hide Placed;
    forall i | 0 <= i < |s| ensures s[i].id in part && Own(s)[i].x == Pos(r.ax, Base(part), Own(s)[i].tag) {
      HeldNamed(r, part, c, s[i]);
      PosUnshifted(r.ax, Base(part), s[i].id);
    }
    PlacedFrom(r.ax, Base(part), Own(s));
  }

  /** The array of a process begins with its own atoms. */
  lemma {:induction false} OwnFirst(w: World, d: nat, h: nat, c: Proc)
    requires w.Valid() && d < 3 && InGrid(w.ax, c)
    ensures |w.own(c)| <= |w.Held(d, h, c)| && w.Held(d, h, c)[..|w.own(c)|] == w.own(c)
    decreases d, h
  {
    if h > 0 {
      OwnFirst(w, d, h - 1, c);
    } else if d > 0 {
      OwnFirst(w, d - 1, w.Hops(d - 1), c);
    }
  }

  /** The bins of process c, nbin of them in each period. */
  function GridOf(w: World, nbin: V3<nat>, c: Proc): (g: BinGrid)
    requires w.Valid() && InGrid(w.ax, c)
  {
    var a0 := BinAxis(nbin.x, w.ax.x.prd, w.ax.x.Edge(c.x), w.ax.x.Edge(c.x + 1), w.cut);
    var a1 := BinAxis(nbin.y, w.ax.y.prd, w.ax.y.Edge(c.y), w.ax.y.Edge(c.y + 1), w.cut);
    var a2 := BinAxis(nbin.z, w.ax.z.prd, w.ax.z.Edge(c.z), w.ax.z.Edge(c.z + 1), w.cut);
    BinGrid(V3(a0, a1, a2), w.cut)
  }

  lemma BoxInPeriod(a: Axis, b: nat)
    requires a.Valid() && b < a.procs
    ensures 0.0 <= a.Edge(b) < a.Edge(b + 1) <= a.prd
  {
    EdgeEnds(a);
    EdgeMono(a, b, b + 1);
    if b > 0 { EdgeMono(a, 0, b); }
    if b + 1 < a.procs { EdgeMono(a, b + 1, a.procs); }
    hide Axis.Edge;
  }

  /** The bins of every process's box are as class Neighbor requires. */
  lemma GridValid(w: World, nbin: V3<nat>, c: Proc)
    requires w.Valid() && InGrid(w.ax, c) && w.cut > 0.0 && nbin.x >= 1 && nbin.y >= 1 && nbin.z >= 1
    ensures GridOf(w, nbin, c).Valid()
  {
    BoxInPeriod(w.ax.x, c.x);
    BoxInPeriod(w.ax.y, c.y);
    BoxInPeriod(w.ax.z, c.z);
    hide Axis.Edge;
  }

  lemma {:induction false} CountIn(s: seq<Copy>, i: nat)
    requires i < |s|
    ensures Count(s, s[i].tag) > 0
  {
    if i < |s| - 1 { CountIn(s[..|s| - 1], i); }
  }

  lemma {:induction false} CountOut(s: seq<Copy>, t: Tag)
    requires forall i :: 0 <= i < |s| ==> s[i].tag != t
    ensures Count(s, t) == 0
  {
    if s != [] { CountOut(s[..|s| - 1], t); }
  }

  lemma {:induction false} CountTwice(s: seq<Copy>, i: nat, j: nat)
    requires i < j < |s| && s[i].tag == s[j].tag
    ensures Count(s, s[i].tag) >= 2
  {
    if j == |s| - 1 { CountIn(s[..j], i); } else { CountTwice(s[..|s| - 1], i, j); }
  }

  /** Every entry of the array is where its image is, within cutneigh of the box,
      and the first entries are in the box. */
  lemma EntryPlaces(w: World, base: map<int, Vec>, nbin: V3<nat>, c: Proc, i: nat)
    requires w.Valid() && InGrid(w.ax, c) && Owned(w, base) && i < |w.Final(c)|
    ensures w.Final(c)[i].tag.id in base && w.Final(c)[i].x == Pos(w.ax, base, w.Final(c)[i].tag)
    ensures GridOf(w, nbin, c).Reaches(w.Final(c)[i].x)
    ensures i < |w.own(c)| ==> w.Final(c)[i] == w.own(c)[i] && GridOf(w, nbin, c).Owns(w.Final(c)[i].x)
  {
    var f := w.Final(c);
    HeldPlaced(w, base, 2, w.Hops(2), c);
    CountIn(f, i);
    BordersExact(w, base, c, f[i].tag);
    OwnFirst(w, 2, w.Hops(2), c);
    assert f == w.Held(2, w.Hops(2), c);
    if i < |w.own(c)| {
      assert f[i] == f[..|w.own(c)|][i];
      CountIn(w.own(c), i);
      BoxRegion(w, base, c, f[i].tag);
    }
    hide Axis.Edge;
    hide Pos;
    hide World.Final;
    hide World.Held;
    hide Count;
  }

  /** What borders leaves is what build expects. */
  lemma BordersHeld(w: World, base: map<int, Vec>, nbin: V3<nat>, c: Proc)
    requires w.Valid() && InGrid(w.ax, c) && Owned(w, base)
    ensures Held(GridOf(w, nbin, c), Positions(w.Final(c)), |w.own(c)|)
  {
    hide Axis.Edge;
    hide GridOf;
    hide Owned;
    hide BinGrid.Owns;
    hide BinGrid.Reaches;
    var f := w.Final(c);
    OwnFirst(w, 2, w.Hops(2), c);
    hide World.Final;
    forall i: nat | i < |f|
      ensures GridOf(w, nbin, c).Reaches(f[i].x) && (i < |w.own(c)| ==> GridOf(w, nbin, c).Owns(f[i].x))
    {
      EntryPlaces(w, base, nbin, c, i);
    }
  }

  /** How often image t occurs in the neighbour list l of array f. */
  function Occurs(f: seq<Copy>, l: seq<int>, t: Tag): nat
    requires forall n :: 0 <= n < |l| ==> 0 <= l[n] < |f|
  {
    if l == [] then 0 else
      Occurs(f, l[..|l| - 1], t) + if f[l[|l| - 1]].tag == t then 1 else 0
  }

  lemma {:induction false} OccursOne(f: seq<Copy>, l: seq<int>, t: Tag, j: nat)
    requires forall n :: 0 <= n < |l| ==> 0 <= l[n] < |f|
    requires j < |f| && forall i :: 0 <= i < |f| ==> (f[i].tag == t <==> i == j)
    ensures Occurs(f, l, t) == multiset(l)[j]
  {
    if l != [] {
      var n := |l| - 1;
      assert l == l[..n] + [l[n]];
      assert multiset(l) == multiset(l[..n]) + multiset{l[n]};
      OccursOne(f, l[..n], t, j);
    }
  }

  lemma {:induction false} OccursNone(f: seq<Copy>, l: seq<int>, t: Tag)
    requires forall n :: 0 <= n < |l| ==> 0 <= l[n] < |f|
    requires forall i :: 0 <= i < |f| ==> f[i].tag != t
    ensures Occurs(f, l, t) == 0
  {
    if l != [] { OccursNone(f, l[..|l| - 1], t); }
  }

  /** Image t, at q, is another atom within cutneigh of the atom s at p, in a bin
      that the stencil meets. */
  predicate Neighbouring(g: BinGrid, s: Tag, p: Vec, t: Tag, q: Vec)
    requires g.Valid()
  {
    t != s && Dist2(p, q) <= Square(g.cut) && Scanned(g, p, q)
  }

  lemma SquareWithin(r: real, t: real)
    requires t >= 0.0 && Square(r) <= Square(t)
    ensures -t <= r <= t
  {
    assert Square(-r) == Square(r);
    if r > t { SquareStrict(t, r); }
    if r < -t { SquareStrict(t, -r); }
  }

  lemma AxesWithin(p: Vec, q: Vec, t: real)
    requires t >= 0.0 && Dist2(p, q) <= Square(t)
    ensures -t <= p.x - q.x <= t && -t <= p.y - q.y <= t && -t <= p.z - q.z <= t
  {
    var x, y, z := p.x - q.x, p.y - q.y, p.z - q.z;
    assert x * x >= 0.0 && y * y >= 0.0 && z * z >= 0.0;
    SquareWithin(x, t);
    SquareWithin(y, t);
    SquareWithin(z, t);
  }

  /** Images within cutneigh of an owned atom are in the halo. */
  lemma NearInHalo(w: World, base: map<int, Vec>, nbin: V3<nat>, c: Proc, p: Vec, t: Tag)
    requires w.Valid() && InGrid(w.ax, c) && t.id in base
    requires GridOf(w, nbin, c).Owns(p) && Dist2(p, Pos(w.ax, base, t)) <= Square(w.cut)
    ensures InHalo(w, base, c, t)
  {
    AxesWithin(p, Pos(w.ax, base, t), w.cut);
    hide Axis.Edge;
    hide Pos;
    hide Dist2;
    hide Square;
  }

  lemma ExactRange(g: BinGrid, x: seq<Vec>, i: nat, l: seq<int>)
    requires g.Valid() && i < |x| && Exact(g, x, i, l)
    ensures forall n :: 0 <= n < |l| ==> 0 <= l[n] < |x|
  {
    hide Scanned;
    hide Dist2;
    forall n | 0 <= n < |l| ensures 0 <= l[n] < |x| {
      assert l[n] in multiset(l);
    }
  }

  /** The list of owned atom i against all atoms and all period shifts: image t
      occurs in it, once, if and only if it is another image within cutneigh in a
      bin the stencil meets. */
  lemma ListImages(w: World, base: map<int, Vec>, nbin: V3<nat>, c: Proc, i: nat, l: seq<int>, t: Tag)
    requires w.Valid() && InGrid(w.ax, c) && Owned(w, base) && GridOf(w, nbin, c).Valid()
    requires i < |w.own(c)| && i < |w.Final(c)| && Exact(GridOf(w, nbin, c), Positions(w.Final(c)), i, l)
    ensures forall n :: 0 <= n < |l| ==> 0 <= l[n] < |w.Final(c)|
    ensures var s := w.Final(c)[i].tag;
            s.id in base &&
            Occurs(w.Final(c), l, t) ==
            Once(t.id in base && Neighbouring(GridOf(w, nbin, c), s, Pos(w.ax, base, s), t, Pos(w.ax, base, t)))
  {
    var f, g := w.Final(c), GridOf(w, nbin, c);
    var s := f[i].tag;
    assert g.cut == w.cut;
    hide *;
    EntryPlaces(w, base, nbin, c, i);
    ExactRange(g, Positions(f), i, l);
    BordersExact(w, base, c, t);
    BordersExact(w, base, c, s);
    if !exists j :: 0 <= j < |f| && f[j].tag == t {
      CountOut(f, t);
      OccursNone(f, l, t);
      NotHeld(w, base, nbin, c, s, f[i].x, t);
    } else {
      var j :| 0 <= j < |f| && f[j].tag == t;
      EntryPlaces(w, base, nbin, c, j);
      UniqueTag(f, t, j);
      UniqueTag(f, s, i);
      OccursOne(f, l, t, j);
      EntryListed(g, f, i, l, j);
    }
  }

  lemma NotHeld(w: World, base: map<int, Vec>, nbin: V3<nat>, c: Proc, s: Tag, p: Vec, t: Tag)
    requires w.Valid() && InGrid(w.ax, c) && GridOf(w, nbin, c).Valid() && GridOf(w, nbin, c).Owns(p)
    requires Once(InHalo(w, base, c, t)) == 0
    ensures Once(t.id in base && Neighbouring(GridOf(w, nbin, c), s, p, t, Pos(w.ax, base, t))) == 0
  {
    hide InHalo;
    hide Scanned;
    hide Dist2;
    hide Square;
    hide Axis.Edge;
    hide BinGrid.Owns;
    if t.id in base && Dist2(p, Pos(w.ax, base, t)) <= Square(w.cut) {
      NearInHalo(w, base, nbin, c, p, t);
    }
  }

  /** An image counted at most once is at one index. */
  lemma UniqueTag(f: seq<Copy>, t: Tag, j: nat)
    requires j < |f| && f[j].tag == t && Count(f, t) <= 1
    ensures forall i :: 0 <= i < |f| ==> (f[i].tag == t <==> i == j)
  {
    forall i | 0 <= i < |f| && f[i].tag == t ensures i == j {
      if i < j { CountTwice(f, i, j); }
      if j < i { CountTwice(f, j, i); }
    }
  }

  lemma EntryListed(g: BinGrid, f: seq<Copy>, i: nat, l: seq<int>, j: nat)
    requires g.Valid() && i < |f| && j < |f| && Exact(g, Positions(f), i, l)
    requires forall k :: 0 <= k < |f| ==> (f[k].tag == f[j].tag <==> k == j)
    ensures multiset(l)[j] == Once(Neighbouring(g, f[i].tag, f[i].x, f[j].tag, f[j].x))
  {
    hide Scanned;
    hide Dist2;
    hide Square;
    Dist2Is(f[i].x, f[j].x);
    SquareIs(g.cut);
  }

  lemma FinalIs(w: World, c: Proc)
    requires w.Valid() && InGrid(w.ax, c)
    ensures w.Final(c) == w.Held(2, w.Hops(2), c)
  {}

  /** l is what memory m holds of the list of atom i: entry n is at n * nlocal + i. */
  predicate ListAt(m: map<int, int>, nlocal: nat, i: nat, count: nat, l: seq<int>) {
    |l| == count && forall n :: 0 <= n < count ==> n * nlocal + i in m && l[n] == m[n * nlocal + i]
  }

  lemma BuiltList(g: BinGrid, x: seq<Vec>, nlocal: nat, numneigh: seq<nat>, m: map<int, int>, i: nat) returns (l: seq<int>)
    requires g.Valid() && Agrees(g, x, nlocal, numneigh, m) && i < nlocal
    ensures nlocal <= |x| && i < |numneigh| == nlocal && ListAt(m, nlocal, i, numneigh[i], l)
    ensures Exact(g, x, i, l)
  {
    hide Exact;
    assert InMemory(m, nlocal, i, numneigh[i]);
    forall n: nat | n < numneigh[i] ensures n * nlocal + i in m { assert Cell(nlocal, i, n) in m; }
    l := Column(m, nlocal, i, numneigh[i]);
  }

  /** What brute force allows for a list that names an image n times: the square of
      its distance is d, and self tells whether it is the listing atom itself. */
  predicate AsBruteForce(g: BinGrid, cut: real, self: bool, d: real, n: nat)
    requires g.Valid()
  {
    && n <= 1
    && (self ==> n == 0)
    && (!self && d < (FACTOR * cut) * (FACTOR * cut) ==> n == 1)
    && (!self && d < cut * cut && !Short(g.ax.x) && !Short(g.ax.y) && !Short(g.ax.z) ==> n == 1)
    && (d > cut * cut ==> n == 0)
  }

  lemma NeighbouringSummary(g: BinGrid, s: Tag, p: Vec, t: Tag, q: Vec)
    requires g.Valid() && g.Owns(p)
    ensures AsBruteForce(g, g.cut, t == s, Dist2(p, q), Once(Neighbouring(g, s, p, t, q)))
  {
    assert g.Home(p);
    assert g.cut > 0.0;
    SquareBelow(FACTOR * g.cut, g.cut);
    hide Scanned;
    hide Dist2;
    hide Square;
    hide Short;
    ScannedExact(g);
    if Dist2(p, q) < Square(FACTOR * g.cut) { ScannedFactor(g, p, q); }
    hide AsBruteForce;
    BruteForceFrom(g, t == s, Dist2(p, q), Once(Neighbouring(g, s, p, t, q)));
  }

  lemma BruteForceFrom(g: BinGrid, self: bool, d: real, n: nat)
    requires g.Valid() && n <= 1 && (self ==> n == 0)
    requires !self && d < Square(FACTOR * g.cut) ==> n == 1
    requires !self && d < Square(g.cut) && !Short(g.ax.x) && !Short(g.ax.y) && !Short(g.ax.z) ==> n == 1
    requires d > Square(g.cut) ==> n == 0
    ensures AsBruteForce(g, g.cut, self, d, n)
  {
    SquareIs(FACTOR * g.cut);
    SquareIs(g.cut);
    hide Square;
    hide Short;
  }

  /** What brute force allows for a list of atom a that names image t, which is t.k
      periods from atom t.id, n times. */
  ghost predicate FoundRightly(g: BinGrid, ax: V3<Axis>, part: map<int, Particle>, a: Particle, t: Tag, cut: real, n: nat)
    requires g.Valid()
  {
    if t.id !in part then n == 0
    else
      var q := part[t.id].x;
      var dx := a.x.x - (q.x + t.k.x as real * ax.x.prd);
      var dy := a.x.y - (q.y + t.k.y as real * ax.y.prd);
      var dz := a.x.z - (q.z + t.k.z as real * ax.z.prd);
      AsBruteForce(g, cut, t == Tag(a.id, ORIGIN), dx * dx + dy * dy + dz * dz, n)
  }

  lemma InCoordinates(g: BinGrid, ax: V3<Axis>, part: map<int, Particle>, a: Particle, t: Tag, cut: real, n: nat)
    requires g.Valid()
    requires if t.id !in part then n == 0 else AsBruteForce(g, cut, t == Tag(a.id, ORIGIN), Dist2(a.x, Pos(ax, Base(part), t)), n)
    ensures FoundRightly(g, ax, part, a, t, cut, n)
  {
    hide Dist2;
    hide Pos;
    hide Short;
    if t.id in part { ApartInCoordinates(ax, part, t, a.x); }
  }

  lemma ApartInCoordinates(ax: V3<Axis>, part: map<int, Particle>, t: Tag, p: Vec)
    requires t.id in part
    ensures var q := part[t.id].x;
            var dx := p.x - (q.x + t.k.x as real * ax.x.prd);
            var dy := p.y - (q.y + t.k.y as real * ax.y.prd);
            var dz := p.z - (q.z + t.k.z as real * ax.z.prd);
            Dist2(p, Pos(ax, Base(part), t)) == dx * dx + dy * dy + dz * dz
  {
    Dist2Is(p, Pos(ax, Base(part), t));
    PosCoordinates(ax, Base(part), t);
    hide Dist2;
    hide Pos;
  }

  /** The list of owned atom i of process c, as build leaves it in memory. */
  ghost predicate Built(r: Run, cut: real, nbin: V3<nat>, c: Proc, numneigh: seq<nat>, m: map<int, int>)
    requires r.Valid() && InGrid(r.ax, c) && cut >= 0.0
  {
    && After(r, cut).Valid() && GridOf(After(r, cut), nbin, c).Valid()
    && Agrees(GridOf(After(r, cut), nbin, c), Positions(After(r, cut).Final(c)), |r.Local(3, c)|, numneigh, m)
  }

  /** p is an atom of the start moved by whole periods. */
  ghost predicate Moved(r: Run, p: Particle) {
    exists c, j, k :: InGrid(r.ax, c) && 0 <= j < |r.init(c)| && ShiftedBy(r.ax, r.init(c)[j], k, p)
  }

  ghost predicate MovedTo(r: Run, c: Proc, j: nat, p: Particle)
    requires j < |r.init(c)|
  {
    exists k :: ShiftedBy(r.ax, r.init(c)[j], k, p)
  }

  /** Every atom of the start is one of part, moved by whole periods, and there are no
      others. */
  ghost predicate FromStart(r: Run, part: map<int, Particle>) {
    && (forall c, j | InGrid(r.ax, c) && 0 <= j < |r.init(c)| :: r.init(c)[j].id in part && MovedTo(r, c, j, part[r.init(c)[j].id]))
    && forall id | id in part :: Moved(r, part[id])
  }

  lemma NamedFromStart(r: Run, part: map<int, Particle>)
    requires r.Valid() && Named(r, part)
    ensures FromStart(r, part)
  {
    hide ShiftedBy;
    hide Run.Amount;
    hide Named;
    hide Moved;
    hide MovedTo;
    forall c, j | InGrid(r.ax, c) && 0 <= j < |r.init(c)|
      ensures r.init(c)[j].id in part && MovedTo(r, c, j, part[r.init(c)[j].id])
    {
      StartNamed(r, part, c, j);
      PbcMoves(r, c, j);
    }
    forall id | id in part ensures Moved(r, part[id]) {
      var c, j := NamedStart(r, part, id);
      PbcMoves(r, c, j);
    }
  }

  lemma PbcMoves(r: Run, c: Proc, j: nat)
    requires r.Valid() && InGrid(r.ax, c) && j < |r.init(c)|
    ensures MovedTo(r, c, j, PbcOne(r.ax, r.init(c)[j])) && Moved(r, PbcOne(r.ax, r.init(c)[j]))
  {
    hide ShiftedBy;
    var k := PbcShifts(r.ax, r.init(c)[j]);
    assert ShiftedBy(r.ax, r.init(c)[j], k, PbcOne(r.ax, r.init(c)[j]));
  }

  lemma StartNamed(r: Run, part: map<int, Particle>, c: Proc, j: nat)
    requires r.Valid() && Named(r, part) && InGrid(r.ax, c) && j < |r.init(c)|
    ensures r.init(c)[j].id in part && part[r.init(c)[j].id] == PbcOne(r.ax, r.init(c)[j])
  {
    var p := PbcOne(r.ax, r.init(c)[j]);
    assert r.Local(0, c)[j] == p;
    assert p in r.Local(0, c);
    hide Run.Amount;
    hide PbcOne;
    var zero := (c: Proc) => 0.0;
    forall e | InGrid(r.ax, e) ensures zero(e) <= r.Amount(0, p)(e) { HeldPositive(r, 0, e, p); }
    HeldPositive(r, 0, c, p);
    TotalLess(r.ax, zero, r.Amount(0, p), c);
    TotalPoint(r.ax, zero, c);
    SameId(r.ax, r.init(c)[j]);
  }

  lemma SameId(ax: V3<Axis>, p: Particle)
    ensures PbcOne(ax, p).id == p.id
  {}

  lemma NamedStart(r: Run, part: map<int, Particle>, id: int) returns (c: Proc, j: nat)
    requires r.Valid() && Named(r, part) && id in part
    ensures InGrid(r.ax, c) && j < |r.init(c)| && part[id] == PbcOne(r.ax, r.init(c)[j])
  {
    var p := part[id];
    assert Total(r.ax, r.Amount(0, p)) == 1.0;
    if !exists e :: InGrid(r.ax, e) && p in r.Local(0, e) {
      forall e ensures r.Amount(0, p)(e) == 0.0 {}
      TotalPoint(r.ax, r.Amount(0, p), V3(0, 0, 0));
    }
    c :| InGrid(r.ax, c) && p in r.Local(0, c);
    j :| 0 <= j < |r.Local(0, c)| && r.Local(0, c)[j] == p;
  }

  /** The list of an owned atom in memory, and how often it names image t. */
  lemma ListFound(r: Run, part: map<int, Particle>, cut: real, nbin: V3<nat>, c: Proc,
                  numneigh: seq<nat>, m: map<int, int>, i: nat, t: Tag) returns (l: seq<int>)
    requires Ready(r, part) && InGrid(r.ax, c) && cut > 0.0 && nbin.x >= 1 && nbin.y >= 1 && nbin.z >= 1
    requires Built(r, cut, nbin, c, numneigh, m) && i < |r.Local(3, c)|
    ensures var nlocal := |r.Local(3, c)|;
            && nlocal <= |After(r, cut).Final(c)| && i < |numneigh| == nlocal && ListAt(m, nlocal, i, numneigh[i], l)
            && forall n :: 0 <= n < |l| ==> 0 <= l[n] < |After(r, cut).Final(c)|
    ensures var a := r.Local(3, c)[i];
            a.id in part && part[a.id] == a
    ensures var a, w := r.Local(3, c)[i], After(r, cut);
            if t.id !in part then Occurs(w.Final(c), l, t) == 0
            else AsBruteForce(GridOf(w, nbin, c), cut, t == Tag(a.id, ORIGIN), Dist2(a.x, Pos(r.ax, Base(part), t)), Occurs(w.Final(c), l, t))
  {
    var w, base, a := After(r, cut), Base(part), r.Local(3, c)[i];
    var g, f := GridOf(w, nbin, c), w.Final(c);
    assert w.Valid() && w.own(c) == Own(r.Local(3, c)) && g.cut == cut;
    hide *;
    OwnedAfter(r, part, cut);
    HeldNamed(r, part, c, a);
    BuiltGrid(r, cut, nbin, c, numneigh, m);
    l := BuiltList(g, Positions(f), |r.Local(3, c)|, numneigh, m, i);
    OwnFirst(w, 2, w.Hops(2), c);
    FinalIs(w, c);
    EntryPlaces(w, base, nbin, c, i);
    ListImages(w, base, nbin, c, i, l, t);
    PosUnshifted(r.ax, base, a.id);
    OnceFalse();
    if t.id in part {
      NeighbouringSummary(g, Tag(a.id, ORIGIN), a.x, t, Pos(r.ax, base, t));
    }
  }

  lemma EntriesPlaced(r: Run, part: map<int, Particle>, cut: real, nbin: V3<nat>, c: Proc)
    requires Ready(r, part) && InGrid(r.ax, c) && cut > 0.0
    ensures forall j :: 0 <= j < |After(r, cut).Final(c)| ==> ImagePlaced(r.ax, part, After(r, cut).Final(c)[j])
  {
    var w, base := After(r, cut), Base(part);
    hide *;
    OwnedAfter(r, part, cut);
    var f := w.Final(c);
    forall j: nat | j < |f| ensures ImagePlaced(r.ax, part, f[j]) {
      EntryPlaces(w, base, nbin, c, j);
      PlacedImage(r.ax, part, f[j]);
    }
  }

  lemma ReadyParts(r: Run, part: map<int, Particle>, cut: real, nbin: V3<nat>, c: Proc, numneigh: seq<nat>, m: map<int, int>)
    requires Ready(r, part) && InGrid(r.ax, c) && cut > 0.0 && Built(r, cut, nbin, c, numneigh, m)
    ensures r.Valid() && Named(r, part) && After(r, cut).Valid() && After(r, cut).ax == r.ax
    ensures GridOf(After(r, cut), nbin, c).Valid() && GridOf(After(r, cut), nbin, c).cut == cut
  {
    hide Named;
    hide Agrees;
  }

  /** End to end: after exchange, borders and build on any processor grid, the list
      of an owned atom names an image of another atom at most once; always if it is
      closer than FACTOR * cutneigh, always if it is closer than cutneigh unless the
      stencil stops short, and never if it is farther than cutneigh. It never names the
      atom itself, but may name its own images. The image t of atom t.id is t.k periods
      from where pbc has put it, which is whole periods from where it was. */
  lemma EndToEnd(r: Run, part: map<int, Particle>, cut: real, nbin: V3<nat>, c: Proc,
                 numneigh: seq<nat>, m: map<int, int>, i: nat, t: Tag) returns (l: seq<int>)
    requires Ready(r, part) && InGrid(r.ax, c) && cut > 0.0 && nbin.x >= 1 && nbin.y >= 1 && nbin.z >= 1
    requires Built(r, cut, nbin, c, numneigh, m) && i < |r.Local(3, c)|
    ensures var nlocal := |r.Local(3, c)|;
            && nlocal <= |After(r, cut).Final(c)| && i < |numneigh| == nlocal && ListAt(m, nlocal, i, numneigh[i], l)
            && forall n :: 0 <= n < |l| ==> 0 <= l[n] < |After(r, cut).Final(c)|
    ensures FromStart(r, part)
    ensures var a := r.Local(3, c)[i];
            a.id in part && part[a.id] == a
    ensures forall j :: 0 <= j < |After(r, cut).Final(c)| ==> ImagePlaced(r.ax, part, After(r, cut).Final(c)[j])
    ensures var f, g := After(r, cut).Final(c), GridOf(After(r, cut), nbin, c);
            g.Valid() && FoundRightly(g, r.ax, part, r.Local(3, c)[i], t, cut, Occurs(f, l, t))
  {
    ReadyParts(r, part, cut, nbin, c, numneigh, m);
    hide *;
    NamedFromStart(r, part);
    l := ListFound(r, part, cut, nbin, c, numneigh, m, i, t);
    EntriesPlaced(r, part, cut, nbin, c);
    var w := After(r, cut);
    InCoordinates(GridOf(w, nbin, c), r.ax, part, r.Local(3, c)[i], t, cut, Occurs(w.Final(c), l, t));
  }

  /** An entry of the array is where its image is. */
  ghost predicate ImagePlaced(ax: V3<Axis>, part: map<int, Particle>, e: Copy) {
    var t := e.tag;
    && t.id in part
    && e.x.x == part[t.id].x.x + t.k.x as real * ax.x.prd
    && e.x.y == part[t.id].x.y + t.k.y as real * ax.y.prd
    && e.x.z == part[t.id].x.z + t.k.z as real * ax.z.prd
  }

  lemma PosCoordinates(ax: V3<Axis>, base: map<int, Vec>, t: Tag)
    requires t.id in base
    ensures var p, b := Pos(ax, base, t), base[t.id];
            p.x == b.x + t.k.x as real * ax.x.prd && p.y == b.y + t.k.y as real * ax.y.prd && p.z == b.z + t.k.z as real * ax.z.prd
  {}

  lemma PlacedImage(ax: V3<Axis>, part: map<int, Particle>, e: Copy)
    requires e.tag.id in Base(part) && e.x == Pos(ax, Base(part), e.tag)
    ensures ImagePlaced(ax, part, e)
  {
    PosCoordinates(ax, Base(part), e.tag);
    hide Pos;
  }

  lemma BuiltGrid(r: Run, cut: real, nbin: V3<nat>, c: Proc, numneigh: seq<nat>, m: map<int, int>)
    requires r.Valid() && InGrid(r.ax, c) && cut >= 0.0 && Built(r, cut, nbin, c, numneigh, m)
    ensures After(r, cut).Valid() && GridOf(After(r, cut), nbin, c).Valid()
    ensures Agrees(GridOf(After(r, cut), nbin, c), Positions(After(r, cut).Final(c)), |r.Local(3, c)|, numneigh, m)
  {}

  lemma OnceFalse()
    ensures Once(false) == 0
  {}
}
