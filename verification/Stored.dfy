/** The exchange with the arrays the processes really have: what is lost when one of them
    has to grow. */
module Stored {
  import opened Vec3
  import opened Grid
  import opened Sums
  import opened Exchange
  import opened Storage

  /** The machine of Exchange, the size of every process's arrays, and what fresh memory
      holds there. */
  datatype Machine = Machine(r: Run, nmax: Proc -> nat, junk: Proc -> Junk<Particle>) {

    ghost predicate Valid() { r.Valid() && forall c | InGrid(r.ax, c) :: |r.init(c)| <= nmax(c) }

    /** The arrays of process c once the dimensions below d have been exchanged. */
    ghost function At(d: nat, c: Proc): (s: Store<Particle>)
      requires Valid() && d <= 3 && InGrid(r.ax, c)
      ensures s.Valid()
      decreases d, 0
    {
      if d == 0 then Store(Pbc(r.ax, r.init(c)), nmax(c))
      else if r.ax.At(d - 1).procs == 1 then At(d - 1, c)
      else
        DepartSize(At(d - 1, c).live, 0, d - 1, r.Lo(d - 1, c), r.Hi(d - 1, c));
        PutAll(Store(Parted(d - 1, c).0, At(d - 1, c).nmax), Incoming(d - 1, c), junk(c))
    }

    ghost function Parted(d: nat, c: Proc): (seq<Particle>, seq<Particle>)
      requires Valid() && d < 3 && InGrid(r.ax, c)
      decreases d, 1
    {
      Depart(At(d, c).live, 0, d, r.Lo(d, c), r.Hi(d, c))
    }

    ghost function Taken(d: nat, c: Proc, from: Proc): seq<Particle>
      requires Valid() && d < 3 && InGrid(r.ax, c) && InGrid(r.ax, from)
      decreases d, 2
    {
      Accept(Parted(d, from).1, d, r.Lo(d, c), r.Hi(d, c))
    }

    ghost function Incoming(d: nat, c: Proc): seq<Particle>
      requires Valid() && d < 3 && InGrid(r.ax, c)
      decreases d, 3
    {
      Taken(d, c, RightOf(r.ax, d, c)) + if r.ax.At(d).procs > 2 then Taken(d, c, LeftOf(r.ax, d, c)) else []
    }

    /** How often c holds p before dimension d is exchanged. */
    ghost function Amount(d: nat, p: Particle): Proc -> real
      requires Valid() && d <= 3
    {
      (c: Proc) => if InGrid(r.ax, c) then multiset(At(d, c).live)[p] as real else 0.0
    }
  }

  lemma {:induction false} DepartSize(s: seq<Particle>, i: nat, d: nat, lo: real, hi: real)
    requires d < 3 && i <= |s|
    ensures |Depart(s, i, d, lo, hi).0| <= |s|
    decreases |s| - i
  {
    if i < |s| {
      if Inside(s[i], d, lo, hi) { DepartSize(s, i + 1, d, lo, hi); } else { DepartSize(s[i := s[|s| - 1]][..|s| - 1], i, d, lo, hi); }
    }
  }

  /** The counts of the ideal machine never pass what a process has room for, up to
      dimension n. */
  ghost predicate Fits(r: Run, nmax: Proc -> nat, n: nat)
    requires r.Valid() && n <= 3
  {
    forall c, d: nat | InGrid(r.ax, c) && d <= n :: |r.Local(d, c)| <= Room(nmax(c))
  }

  lemma AtNext(m: Machine, d: nat, c: Proc)
    requires m.Valid() && d < 3 && InGrid(m.r.ax, c) && m.r.ax.At(d).procs > 1
    ensures Store(m.Parted(d, c).0, m.At(d, c).nmax).Valid()
    ensures m.At(d + 1, c) == PutAll(Store(m.Parted(d, c).0, m.At(d, c).nmax), m.Incoming(d, c), m.junk(c))
  {
    DepartSize(m.At(d, c).live, 0, d, m.r.Lo(d, c), m.r.Hi(d, c));
    hide PutAll;
    hide Depart;
    hide Machine.Incoming;
    hide Axis.Edge;
    hide RightOf;
    hide LeftOf;
  }

  lemma AtSame(m: Machine, d: nat, c: Proc)
    requires m.Valid() && d < 3 && InGrid(m.r.ax, c) && m.r.ax.At(d).procs == 1
    ensures m.At(d + 1, c) == m.At(d, c) && m.r.Local(d + 1, c) == m.r.Local(d, c)
  {}

  ghost function IdealIncoming(r: Run, d: nat, c: Proc): seq<Particle>
    requires r.Valid() && d < 3 && InGrid(r.ax, c)
  {
    r.Taken(d, c, RightOf(r.ax, d, c)) + if r.ax.At(d).procs > 2 then r.Taken(d, c, LeftOf(r.ax, d, c)) else []
  }

  lemma LocalIs(r: Run, d: nat, c: Proc)
    requires r.Valid() && d < 3 && InGrid(r.ax, c) && r.ax.At(d).procs > 1
    ensures r.Local(d + 1, c) == r.Parted(d, c).0 + IdealIncoming(r, d, c)
  {
    hide Run.Parted;
    hide Run.Taken;
    hide Axis.Edge;
    hide RightOf;
    hide LeftOf;
  }

  /** Processes with the right atoms send the right ones. */
  lemma SameIncoming(m: Machine, d: nat, c: Proc)
    requires m.Valid() && d < 3 && InGrid(m.r.ax, c)
    requires forall q | q in {c, RightOf(m.r.ax, d, c), LeftOf(m.r.ax, d, c)} :: m.At(d, q).live == m.r.Local(d, q)
    ensures m.Parted(d, c) == m.r.Parted(d, c) && m.Incoming(d, c) == IdealIncoming(m.r, d, c)
  {
    hide Machine.At;
    hide Run.Local;
    hide Depart;
    hide Accept;
    hide Axis.Edge;
    var R, L := RightOf(m.r.ax, d, c), LeftOf(m.r.ax, d, c);
    assert m.At(d, c).live == m.r.Local(d, c) && m.At(d, R).live == m.r.Local(d, R) && m.At(d, L).live == m.r.Local(d, L);
    assert m.Parted(d, R) == m.r.Parted(d, R) && m.Parted(d, L) == m.r.Parted(d, L);
  }

  /** As long as they do not, nothing is lost. */
  lemma {:induction false} Same(m: Machine, d: nat, c: Proc)
    requires m.Valid() && d <= 3 && InGrid(m.r.ax, c) && Fits(m.r, m.nmax, d)
    ensures m.At(d, c).live == m.r.Local(d, c)
    ensures Room(m.At(d, c).nmax) == Room(m.nmax(c))
    decreases d
  {
    if d > 0 {
      var e := d - 1;
      FitsBelow(m, d, c);
      hide *;
      Same(m, e, c);
      if m.r.ax.At(e).procs == 1 {
        AtSame(m, e, c);
      } else {
        InGridRow(m.r, e, c);
        Same(m, e, RightOf(m.r.ax, e, c));
        Same(m, e, LeftOf(m.r.ax, e, c));
        SameIncoming(m, e, c);
        AtNext(m, e, c);
        LocalIs(m.r, e, c);
        PutAllKeeps(Store(m.Parted(e, c).0, m.At(e, c).nmax), m.Incoming(e, c), m.junk(c));
        RoomTwice(m.At(e, c).nmax);
      }
    } else {
      StartSame(m, c);
    }
  }

  lemma StartSame(m: Machine, c: Proc)
    requires m.Valid() && InGrid(m.r.ax, c)
    ensures m.At(0, c) == Store(m.r.Local(0, c), m.nmax(c))
  {}

  lemma RoomTwice(n: nat)
    ensures Room(Room(n)) == Room(n)
  {}

  lemma FitsBelow(m: Machine, d: nat, c: Proc)
    requires m.Valid() && 0 < d <= 3 && InGrid(m.r.ax, c) && Fits(m.r, m.nmax, d)
    ensures Fits(m.r, m.nmax, d - 1) && |m.r.Local(d, c)| <= Room(m.nmax(c)) && m.r.Valid()
  {
    hide Run.Local;
  }

  lemma InGridRow(r: Run, d: nat, c: Proc)
    requires r.Valid() && d < 3 && InGrid(r.ax, c)
    ensures InGrid(r.ax, RightOf(r.ax, d, c)) && InGrid(r.ax, LeftOf(r.ax, d, c))
    ensures r.ax.At(d).procs != 1 ==> r.ax.At(d).procs > 1
  {}

  /** An atom in the low corner of the box of c. */
  function Corner(r: Run, c: Proc, id: int): Particle
    requires r.ax.x.Valid() && r.ax.y.Valid() && r.ax.z.Valid()
  {
    Particle(V3(r.ax.x.Edge(c.x), r.ax.y.Edge(c.y), r.ax.z.Edge(c.z)), V3(0.0, 0.0, 0.0), id)
  }

  lemma CornerHere(r: Run, c: Proc, id: int, d: nat)
    requires r.Valid() && d < 3
    ensures Inside(Corner(r, c, id), d, r.Lo(d, c), r.Hi(d, c))
  {
    EdgeMono(r.ax.At(d), c.At(d), c.At(d) + 1);
  }

  ghost predicate AllJunk(m: Machine, j: Particle) { forall c, size, i :: m.junk(c)(size, i) == j }

  lemma PutJunk(s: Store<Particle>, vs: seq<Particle>, junk: Junk<Particle>, j: Particle)
    requires s.Valid() && (forall size, i :: junk(size, i) == j) && (j in s.live || |s.live| + |vs| > Room(s.nmax))
    ensures j in PutAll(s, vs, junk).live
  {
    PutAllKeeps(s, vs, junk);
    if |s.live| + |vs| > Room(s.nmax) { assert PutAll(s, vs, junk).live[0] == j; }
  }

  /** What memory held stays, if it looks like an atom of the box. */
  lemma {:induction false} Sticks(m: Machine, d: nat, e: nat, c: Proc, id: int)
    requires m.Valid() && d <= e <= 3 && InGrid(m.r.ax, c) && AllJunk(m, Corner(m.r, c, id))
    requires Corner(m.r, c, id) in m.At(d, c).live
    ensures Corner(m.r, c, id) in m.At(e, c).live
    decreases e
  {
    if d < e {
      hide *;
      Sticks(m, d, e - 1, c, id);
      StickStep(m, e - 1, c, id);
    }
  }

  lemma StickStep(m: Machine, d: nat, c: Proc, id: int)
    requires m.Valid() && d < 3 && InGrid(m.r.ax, c) && AllJunk(m, Corner(m.r, c, id)) && Corner(m.r, c, id) in m.At(d, c).live
    ensures Corner(m.r, c, id) in m.At(d + 1, c).live
  {
    var j := Corner(m.r, c, id);
    hide Corner;
    InGridRow(m.r, d, c);
    if m.r.ax.At(d).procs == 1 {
      AtSame(m, d, c);
    } else {
      AtNext(m, d, c);
      CornerHere(m.r, c, id, d);
      hide Machine.At;
      hide Axis.Edge;
      hide Depart;
      hide Inside;
      DepartSplits(m.At(d, c).live, 0, d, m.r.Lo(d, c), m.r.Hi(d, c));
      var q := m.Parted(d, c);
      assert multiset(q.0)[j] + multiset(q.1)[j] == multiset(m.At(d, c).live)[j] > 0;
      assert j !in q.1;
      assert j in q.0;
      PutJunk(Store(q.0, m.At(d, c).nmax), m.Incoming(d, c), m.junk(c), j);
    }
  }

  /** The first dimension in which a count passes what there is room for: the process has
      lost what it held. */
  lemma Overflows(m: Machine, d: nat, c: Proc, j: Particle)
    requires m.Valid() && d < 3 && InGrid(m.r.ax, c) && AllJunk(m, j) && Fits(m.r, m.nmax, d) && |m.r.Local(d + 1, c)| > Room(m.nmax(c))
    ensures j in m.At(d + 1, c).live
  {
    assert |m.r.Local(d, c)| <= Room(m.nmax(c));
    assert forall size, i :: m.junk(c)(size, i) == j;
    hide *;
    InGridRow(m.r, d, c);
    Same(m, d, c);
    if m.r.ax.At(d).procs == 1 { AtSame(m, d, c); }
    Same(m, d, RightOf(m.r.ax, d, c));
    Same(m, d, LeftOf(m.r.ax, d, c));
    SameIncoming(m, d, c);
    AtNext(m, d, c);
    LocalIs(m.r, d, c);
    PutJunk(Store(m.Parted(d, c).0, m.At(d, c).nmax), m.Incoming(d, c), m.junk(c), j);
  }

  lemma FirstOverflow(r: Run, nmax: Proc -> nat) returns (d: nat, c: Proc)
    requires r.Valid() && (forall c | InGrid(r.ax, c) :: |r.init(c)| <= nmax(c)) && !Fits(r, nmax, 3)
    ensures d < 3 && InGrid(r.ax, c) && Fits(r, nmax, d) && |r.Local(d + 1, c)| > Room(nmax(c))
  {
    assert Fits(r, nmax, 0);
    d := if !Fits(r, nmax, 1) then 0 else if !Fits(r, nmax, 2) then 1 else 2;
    var e: nat;
    c, e :| InGrid(r.ax, c) && e <= d + 1 && |r.Local(e, c)| > Room(nmax(c));
    hide Run.Local;
    assert forall k: nat | k <= d :: |r.Local(k, c)| <= Room(nmax(c));
  }

  /** An id beyond those of all atoms. */
  function Above(s: seq<Particle>): (id: int)
    ensures forall p | p in s :: p.id < id
  {
    if s == [] then 0
    else
      var n := Above(s[..|s| - 1]);
      assert s == s[..|s| - 1] + [s[|s| - 1]];
      if n > s[|s| - 1].id then n else s[|s| - 1].id + 1
  }

  function Most(n: nat, f: nat -> int): (r: int)
    ensures forall i: nat | i < n :: f(i) <= r
  {
    if n == 0 then 0 else var r := Most(n - 1, f); if f(n - 1) > r then f(n - 1) else r
  }

  function Newest(r: Run): int {
    Most(r.ax.x.procs, (x: nat) => Most(r.ax.y.procs, (y: nat) => Most(r.ax.z.procs, (z: nat) => Above(r.init(V3(x, y, z))))))
  }

  lemma NewestIsNew(r: Run, c: Proc, p: Particle)
    requires r.Valid() && InGrid(r.ax, c) && p in r.Local(0, c)
    ensures p.id < Newest(r)
  {
    var k :| 0 <= k < |r.Local(0, c)| && r.Local(0, c)[k] == p;
    assert r.init(c)[k] in r.init(c) && r.init(c)[k].id == p.id;
    assert p.id < Above(r.init(c));
    var f := (z: nat) => Above(r.init(V3(c.x, c.y, z)));
    var g := (y: nat) => Most(r.ax.z.procs, (z: nat) => Above(r.init(V3(c.x, y, z))));
    var h := (x: nat) => Most(r.ax.y.procs, (y: nat) => Most(r.ax.z.procs, (z: nat) => Above(r.init(V3(x, y, z)))));
    assert f(c.z) <= Most(r.ax.z.procs, f);
    assert g(c.y) <= Most(r.ax.y.procs, g);
    assert h(c.x) <= Most(r.ax.x.procs, h);
  }

  /** A run in which the count passes: an atom that nobody had is held by c. */
  lemma Garbage(r: Run, nmax: Proc -> nat) returns (m: Machine, c: Proc, j: Particle)
    requires r.Valid() && (forall c | InGrid(r.ax, c) :: |r.init(c)| <= nmax(c)) && !Fits(r, nmax, 3)
    ensures m.Valid() && m.r == r && m.nmax == nmax && InGrid(r.ax, c) && j in m.At(3, c).live
    ensures forall q, p | InGrid(r.ax, q) && p in r.Local(0, q) :: p != j
  {
    var d;
    d, c := FirstOverflow(r, nmax);
    j := Corner(r, c, Newest(r));
    var jj := j;
    m := Machine(r, nmax, (_: Proc) => (_, _) => jj);
    Overflows(m, d, c, j);
    Sticks(m, d + 1, 3, c, Newest(r));
    forall q, p | InGrid(r.ax, q) && p in r.Local(0, q) ensures p != j { NewestIsNew(r, q, p); }
  }

  /** Exchange leaves every process with what it should have, whatever fresh memory
      holds, if and only if no count ever passes the size of the process's arrays. */
  lemma ExchangeKept(r: Run, nmax: Proc -> nat)
    requires r.Valid() && forall c | InGrid(r.ax, c) :: |r.init(c)| <= nmax(c)
    ensures (forall junk, c | InGrid(r.ax, c) :: Machine(r, nmax, junk).At(3, c).live == r.Local(3, c)) <==> Fits(r, nmax, 3)
  {
    if Fits(r, nmax, 3) {
      forall junk, c | InGrid(r.ax, c) ensures Machine(r, nmax, junk).At(3, c).live == r.Local(3, c) {
        Same(Machine(r, nmax, junk), 3, c);
      }
    } else {
      var m, c, j := Garbage(r, nmax);
      hide Fits;
      if j in r.Local(3, c) { var o := Origin(r, 3, c, j); }
      assert m == Machine(r, nmax, m.junk);
      assert m.At(3, c).live != r.Local(3, c);
    }
  }

  /** No copy of p has been lost or added. */
  ghost predicate Conserved(m: Machine, p: Particle)
    requires m.Valid()
  {
    Total(m.r.ax, m.Amount(3, p)) == Total(m.r.ax, m.r.Amount(0, p))
  }

  ghost predicate Reached(r: Run, p: Particle)
    requires r.Valid()
  {
    forall c, d | InGrid(r.ax, c) && 0 <= d < 3 && p in r.Local(0, c) :: Claimed(r, d, c, p)
  }

  /** With room for all, an atom is kept exactly if it is always within reach. */
  lemma ConservedExactly(m: Machine, p: Particle)
    requires m.Valid() && Fits(m.r, m.nmax, 3)
    ensures Conserved(m, p) <==> Reached(m.r, p)
  {
    SameTotal(m, p);
    ExchangeConserves(m.r, p);
    hide Total;
    hide Run.Amount;
    hide Machine.Amount;
    hide Run.Local;
    hide Claimed;
  }

  /** Exchange neither loses nor duplicates any atom, whatever fresh memory holds, if and
      only if no count ever passes the size of the arrays and every atom is, in each
      dimension, in the box of its holder or next to it. */
  lemma AllConserved(r: Run, nmax: Proc -> nat)
    requires r.Valid() && forall c | InGrid(r.ax, c) :: |r.init(c)| <= nmax(c)
    ensures (forall junk, p :: Conserved(Machine(r, nmax, junk), p)) <==> Fits(r, nmax, 3) && forall p :: Reached(r, p)
  {
    hide Conserved;
    hide Reached;
    if Fits(r, nmax, 3) {
      hide Fits;
      var none: Proc -> Junk<Particle> := (_: Proc) => (_, _) => Particle(V3(0.0, 0.0, 0.0), V3(0.0, 0.0, 0.0), 0);
      forall p ensures Conserved(Machine(r, nmax, none), p) <==> Reached(r, p) { ConservedExactly(Machine(r, nmax, none), p); }
      if forall p :: Reached(r, p) {
        forall junk, p ensures Conserved(Machine(r, nmax, junk), p) { ConservedExactly(Machine(r, nmax, junk), p); }
      }
    } else {
      var m, c, j := Garbage(r, nmax);
      NotConserved(m, c, j);
      hide Fits;
      assert m == Machine(r, nmax, m.junk);
    }
  }

  lemma NotConserved(m: Machine, c: Proc, j: Particle)
    requires m.Valid() && InGrid(m.r.ax, c) && j in m.At(3, c).live
    requires forall q, p | InGrid(m.r.ax, q) && p in m.r.Local(0, q) :: p != j
    ensures !Conserved(m, j)
  {
    MoreThanBefore(m, c, j);
  }

  lemma SameTotal(m: Machine, p: Particle)
    requires m.Valid() && Fits(m.r, m.nmax, 3)
    ensures Total(m.r.ax, m.Amount(3, p)) == Total(m.r.ax, m.r.Amount(3, p))
  {
    forall c | InGrid(m.r.ax, c) ensures m.Amount(3, p)(c) == m.r.Amount(3, p)(c) { Same(m, 3, c); }
    hide Machine.Amount;
    hide Run.Amount;
    TotalEq(m.r.ax, m.Amount(3, p), m.r.Amount(3, p));
  }

  lemma MoreThanBefore(m: Machine, c: Proc, j: Particle)
    requires m.Valid() && InGrid(m.r.ax, c) && j in m.At(3, c).live
    requires forall q, p | InGrid(m.r.ax, q) && p in m.r.Local(0, q) :: p != j
    ensures Total(m.r.ax, m.r.Amount(0, j)) < Total(m.r.ax, m.Amount(3, j))
  {
    hide Machine.At;
    hide Run.Local;
    forall q | InGrid(m.r.ax, q) ensures m.r.Amount(0, j)(q) == 0.0 <= m.Amount(3, j)(q) {
      assert j !in m.r.Local(0, q);
    }
    assert m.Amount(3, j)(c) > 0.0;
    hide Machine.Amount;
    hide Run.Amount;
    TotalLess(m.r.ax, m.r.Amount(0, j), m.Amount(3, j), c);
  }

  /** Two processes side by side: the left one's arrays are full, and an atom has just
      moved over to it from the right one. */
  const HOME := Particle(V3(0.5, 0.5, 0.5), V3(0.0, 0.0, 0.0), 0)
  const GRID: V3<Axis> := V3(Axis(2, 2.0), Axis(1, 1.0), Axis(1, 1.0))
  const FULL := 320000

  function Crowd(n: nat): (s: seq<Particle>)
    ensures |s| == n && forall i :: 0 <= i < n ==> s[i] == HOME.(id := i)
  {
    seq(n, i => HOME.(id := i))
  }

  function Crowded(): Run { Run(GRID, (c: Proc) => if c.x == 0 then Crowd(FULL) else [HOME.(id := FULL)]) }

  lemma {:induction false} DepartNone(s: seq<Particle>, i: nat, d: nat, lo: real, hi: real)
    requires d < 3 && i <= |s| && forall p | p in s :: Inside(p, d, lo, hi)
    ensures Depart(s, i, d, lo, hi) == (s, [])
    decreases |s| - i
  {
    if i < |s| { DepartNone(s, i + 1, d, lo, hi); }
  }

  lemma DepartOne(p: Particle, d: nat, lo: real, hi: real)
    requires d < 3 && !Inside(p, d, lo, hi)
    ensures Depart([p], 0, d, lo, hi) == ([], [p])
  {
    assert [p][0 := p][..0] == [];
    assert Depart([], 0, d, lo, hi) == ([], []);
    assert [p] + [] == [p];
  }

  lemma CrowdStays(s: seq<Particle>)
    requires forall p | p in s :: p.x == HOME.x
    ensures Pbc(GRID, s) == s
  {
    forall i | 0 <= i < |s| ensures PbcOne(GRID, s[i]) == s[i] { assert s[i] in s; }
  }

  lemma OneTooMany()
    ensures var r, c := Crowded(), V3(0, 0, 0); r.Valid() && InGrid(r.ax, c) && |r.Local(1, c)| == FULL + 1
  {
    var r, c, e := Crowded(), V3(0, 0, 0), V3(1, 0, 0);
    var more := HOME.(id := FULL);
    CrowdStays(Crowd(FULL));
    CrowdStays([more]);
    assert r.Local(0, c) == Crowd(FULL) && r.Local(0, e) == [more];
    DepartNone(Crowd(FULL), 0, 0, r.Lo(0, c), r.Hi(0, c));
    DepartOne(more, 0, r.Lo(0, e), r.Hi(0, e));
    assert [more][..0] == [];
    assert Accept([], 0, r.Lo(0, c), r.Hi(0, c)) == [];
    assert Accept([more], 0, r.Lo(0, c), r.Hi(0, c)) == [more];
    LocalIs(r, 0, c);
    assert RightOf(r.ax, 0, c) == e;
  }

  lemma CrowdReached(p: Particle)
    ensures Crowded().Valid() && Reached(Crowded(), p)
  {
    var r := Crowded();
    CrowdStays(Crowd(FULL));
    CrowdStays([HOME.(id := FULL)]);
    hide Crowd;
    forall c, d | InGrid(r.ax, c) && 0 <= d < 3 && p in r.Local(0, c) ensures Claimed(r, d, c, p) {
      if d == 0 {
        assert p.x == HOME.x;
        assert r.Here(0, V3(0, c.y, c.z), p);
      }
    }
  }

  lemma CrowdStored()
    ensures Crowded().Valid() && forall c | InGrid(Crowded().ax, c) :: |Crowded().init(c)| <= FULL
  {}

  lemma CrowdPasses(nmax: Proc -> nat)
    requires Crowded().Valid() && InGrid(Crowded().ax, V3(0, 0, 0)) && |Crowded().Local(1, V3(0, 0, 0))| == FULL + 1 && nmax(V3(0, 0, 0)) == FULL
    ensures !Fits(Crowded(), nmax, 3)
  {
    hide Run.Local;
    hide Crowded;
  }

  /** Every atom is within reach, and still exchange can lose atoms. */
  lemma OverflowLoses() returns (m: Machine, p: Particle)
    ensures m.Valid() && m.r == Crowded() && (forall q :: Reached(m.r, q)) && (forall c | InGrid(m.r.ax, c) :: m.nmax(c) == FULL)
    ensures !Conserved(m, p)
  {
    hide Crowded;
    hide Crowd;
    hide Reached;
    hide Conserved;
    hide Fits;
    hide Run.Local;
    hide Run.Valid;
    var r := Crowded();
    var nmax := (_: Proc) => FULL;
    OneTooMany();
    forall q ensures Reached(r, q) { CrowdReached(q); }
    CrowdStored();
    CrowdPasses(nmax);
    AllConserved(r, nmax);
    var junk; junk, p :| !Conserved(Machine(r, nmax, junk), p);
    m := Machine(r, nmax, junk);
  }
}
