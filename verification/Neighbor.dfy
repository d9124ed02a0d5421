/** Neighbor::build as a whole: the lists agree with looking at all pairs. */
module Neighbor {
  import opened Vec3
  import opened Bins
  import opened Rows
  import opened Stencil
  import opened Binning
  import opened Lists

  /** neighbor_build is launched on a binned set of atoms: bin is coord2bin of
      each, the first nlocal are owned, and the others are close enough. */
  ghost predicate Prepared(g: BinGrid, a: Args, bin: seq<nat>) {
    && g.Valid() && a.cutsq == Square(g.cut) && StencilOf(g, a.stencil)
    && Held(g, a.x, a.nlocal) && InBins(a, bin, g.MBins())
    && (forall i :: 0 <= i < |bin| ==> bin[i] == g.Coord2Bin(a.x[i]))
  }

  /** The bins list the atoms by bin. */
  ghost predicate InBins(a: Args, bin: seq<nat>, mbins: nat) {
    a.ibins == bin && |bin| == |a.x| && Binned(Job(bin, mbins, a.cap), a.bincount, a.bins)
  }

  /** x holds nlocal owned atoms and then ghosts within cutneigh of the box. */
  ghost predicate Held(g: BinGrid, x: seq<Vec>, nlocal: nat) {
    && nlocal <= |x|
    && (forall i :: 0 <= i < nlocal ==> g.Owns(x[i]))
    && (forall i :: 0 <= i < |x| ==> g.Reaches(x[i]))
  }

  lemma SlotAtoms(a: Args, bin: seq<nat>, mbins: nat, b: nat)
    requires InBins(a, bin, mbins) && b < mbins
    ensures a.BinReadable(b)
    ensures forall j :: multiset(Slots(a.bincount, a.bins, a.cap, b))[j] == if 0 <= j < |bin| && bin[j] == b then 1 else 0
  {
    assert BinListed(Job(bin, mbins, a.cap), a.bincount, a.bins, b);
    var s := Slots(a.bincount, a.bins, a.cap, b);
    forall m | 0 <= m < |s| ensures 0 <= s[m] < |a.x| {
      assert s[m] in s && multiset(s)[s[m]] > 0;
    }
  }

  /** No stencil bin of an owned atom lies outside the bins. */
  ghost predicate ScansInside(g: BinGrid, x: seq<Vec>, nlocal: nat)
    requires g.Valid() && nlocal <= |x|
  {
    forall i, v | 0 <= i < nlocal && IsOffset(g, v) :: 0 <= g.Coord2Bin(x[i]) + v < g.MBins()
  }

  lemma BinReadableExactly(g: BinGrid, a: Args, bin: seq<nat>, b: int)
    requires Prepared(g, a, bin)
    ensures a.BinReadable(b) <==> 0 <= b < g.MBins()
  {
    hide BinGrid.MBins;
    hide BinGrid.Coord2Bin;
    hide IsOffset;
    hide Held;
    if 0 <= b < g.MBins() { SlotAtoms(a, bin, g.MBins(), b); }
  }

  /** Nothing is read outside its array if and only if no stencil bin lies outside. */
  lemma AllReadable(g: BinGrid, a: Args, bin: seq<nat>)
    requires Prepared(g, a, bin)
    ensures g.Valid() && a.nlocal <= |a.x|
    ensures (forall i: nat | i < a.nlocal :: a.Readable(i)) <==> ScansInside(g, a.x, a.nlocal)
  {
    hide BinGrid.Coord2Bin;
    hide BinGrid.MBins;
    hide IsOffset;
    hide Args.BinReadable;
    forall b: int ensures a.BinReadable(b) <==> 0 <= b < g.MBins() { BinReadableExactly(g, a, bin, b); }
    forall i: nat, v: int | i < a.nlocal && a.Readable(i) && IsOffset(g, v) ensures 0 <= g.Coord2Bin(a.x[i]) + v < g.MBins() {
      assert v in a.stencil;
      var k :| 0 <= k < |a.stencil| && a.stencil[k] == v;
      assert a.BinReadable(a.ibins[i] + a.stencil[k]);
    }
    forall i: nat | i < a.nlocal && ScansInside(g, a.x, a.nlocal) ensures a.Readable(i) {
      forall k | 0 <= k < |a.stencil| ensures a.BinReadable(a.ibins[i] + a.stencil[k]) {
        assert a.stencil[k] in a.stencil;
      }
    }
  }

  /** That is so for all atoms if and only if no owned position reaches the far corner. */
  lemma CornerlessInside(g: BinGrid)
    requires g.Valid()
    ensures (forall x, nlocal: nat | nlocal <= |x| && Held(g, x, nlocal) :: ScansInside(g, x, nlocal)) <==> !Cornered(g)
  {
    hide BinGrid.Flat;
    hide BinGrid.MBins;
    hide BinGrid.InStencil;
    hide BinGrid.Coord2Bin;
    hide Cornered;
    hide BinGrid.Owns;
    hide BinGrid.Reaches;
    ScanInRange(g);
    if Cornered(g) {
      var p, o :| g.Owns(p) && g.InStencil(o) && !(0 <= g.Coord2Bin(p) + g.Flat(o) < g.MBins());
      OwnsReaches(g, p);
      assert IsOffset(g, g.Flat(o)) && [p][0] == p;
      assert Held(g, [p], 1);
    }
  }

  lemma OwnsReaches(g: BinGrid, p: Vec)
    requires g.Valid() && g.Owns(p)
    ensures g.Reaches(p)
  {}

  /** After k stencil bins, j has been found as often as the offset between the
      bins of i and j was among them. */
  lemma {:induction false} FoundCount(a: Args, bin: seq<nat>, mbins: nat, i: nat, k: nat, j: int)
    requires InBins(a, bin, mbins) && a.Readable(i) && k <= |a.stencil|
    ensures multiset(a.Found(i, k))[j] ==
            if 0 <= j < |a.x| && a.Accepts(i, j) then multiset(a.stencil[..k])[bin[j] - bin[i]] else 0
  {
    hide *;
    if k == 0 {
      FoundNone(a, i);
    } else {
      FoundStep(a, bin, mbins, i, k, j);
      FoundCount(a, bin, mbins, i, k - 1, j);
      TakeCount(a.stencil, k, bin, i, j);
    }
  }

  lemma FoundNone(a: Args, i: nat)
    requires a.Readable(i)
    ensures a.Found(i, 0) == []
  {}

  lemma FoundStep(a: Args, bin: seq<nat>, mbins: nat, i: nat, k: nat, j: int)
    requires InBins(a, bin, mbins) && a.Readable(i) && 0 < k <= |a.stencil|
    ensures |bin| == |a.x| && i < |a.x|
    ensures multiset(a.Found(i, k))[j] == multiset(a.Found(i, k - 1))[j] +
            if 0 <= j < |a.x| && a.Accepts(i, j) && bin[j] == bin[i] + a.stencil[k - 1] then 1 else 0
  {
    var b := bin[i] + a.stencil[k - 1];
    assert a.BinReadable(b) && b < mbins;
    var s := Slots(a.bincount, a.bins, a.cap, b);
    SlotAtoms(a, bin, mbins, b);
    var n := multiset(s)[j];
    assert |bin| == |a.x| && n == if 0 <= j < |bin| && bin[j] == b then 1 else 0;
    var f, p := a.Found(i, k - 1), a.Passed(i, s);
    assert a.Found(i, k) == f + p;
    PassedCount(a, i, s, j);
    hide *;
    assert multiset(f + p)[j] == multiset(f)[j] + multiset(p)[j];
  }

  lemma TakeCount(stencil: seq<int>, k: nat, bin: seq<nat>, i: nat, j: int)
    requires 0 < k <= |stencil| && i < |bin|
    ensures 0 <= j < |bin| ==>
            multiset(stencil[..k])[bin[j] - bin[i]] ==
            multiset(stencil[..k - 1])[bin[j] - bin[i]] + if bin[j] == bin[i] + stencil[k - 1] then 1 else 0
  {
    assert stencil[..k] == stencil[..k - 1] + [stencil[k - 1]];
  }

  lemma OffsetScanned(g: BinGrid, p: Vec, q: Vec)
    requires g.Valid() && g.Owns(p) && g.Reaches(q)
    ensures IsOffset(g, g.Coord2Bin(q) - g.Coord2Bin(p)) <==> Scanned(g, p, q)
  {
    hide BinGrid.Coord2Bin;
    hide BinGrid.BinOf;
    hide BinGrid.Flat;
    hide BinGrid.BinDist;
    hide BinAxis.Next;
    hide BinAxis.Owns;
    hide BinAxis.Reaches;
    var e := Minus(g.BinOf(q), g.BinOf(p));
    if IsOffset(g, g.Coord2Bin(q) - g.Coord2Bin(p)) {
      var o :| g.InStencil(o) && g.Flat(o) == g.Coord2Bin(q) - g.Coord2Bin(p);
      MeetsBin(g, p, q, o);
    }
    if g.InStencil(e) {
      MeetsBin(g, p, q, e);
    }
  }

  /** The cell list against all pairs: atom j is listed for atom i, once, exactly
      if it is another atom within cutneigh whose bin the stencil meets. */
  lemma ListExact(g: BinGrid, a: Args, bin: seq<nat>, i: nat, j: int)
    requires Prepared(g, a, bin) && a.Readable(i) && i < a.nlocal
    ensures multiset(a.List(i))[j] ==
            if 0 <= j < |a.x| && j != i && Scanned(g, a.x[i], a.x[j]) &&
              (var dx, dy, dz := a.x[i].x - a.x[j].x, a.x[i].y - a.x[j].y, a.x[i].z - a.x[j].z; dx * dx + dy * dy + dz * dz <= g.cut * g.cut)
            then 1 else 0
  {
    hide *;
    Facts(g, a, bin, i);
    FoundCount(a, bin, g.MBins(), i, |a.stencil|, j);
    assert a.stencil[..|a.stencil|] == a.stencil;
    if 0 <= j < |a.x| {
      JoinedFacts(g, a, bin, i, j);
      Dist2Is(a.x[i], a.x[j]);
      SquareIs(g.cut);
      OffsetScanned(g, a.x[i], a.x[j]);
      var v: int := bin[j];
      OffsetCount(g, a.stencil, v - bin[i]);
    }
  }

  lemma Facts(g: BinGrid, a: Args, bin: seq<nat>, i: nat)
    requires Prepared(g, a, bin) && a.Readable(i) && i < a.nlocal
    ensures g.Valid() && InBins(a, bin, g.MBins()) && StencilOf(g, a.stencil) && i < |bin| == |a.x|
    ensures a.List(i) == a.Found(i, |a.stencil|)
  {}

  lemma JoinedFacts(g: BinGrid, a: Args, bin: seq<nat>, i: nat, j: nat)
    requires Prepared(g, a, bin) && i < a.nlocal && i < |bin| == |a.x| && j < |a.x|
    ensures g.Owns(a.x[i]) && g.Reaches(a.x[j]) && bin[i] == g.Coord2Bin(a.x[i]) && bin[j] == g.Coord2Bin(a.x[j])
    ensures a.Accepts(i, j) <==> Dist2(a.x[i], a.x[j]) <= Square(g.cut) && j != i
  {
    hide InBins;
    hide StencilOf;
    hide BinGrid.Coord2Bin;
    hide BinGrid.Owns;
    hide BinGrid.Reaches;
    hide Dist2;
    hide Square;
  }

  lemma OffsetCount(g: BinGrid, stencil: seq<int>, v: int)
    requires g.Valid() && StencilOf(g, stencil)
    ensures multiset(stencil)[v] == if IsOffset(g, v) then 1 else 0
  {
    hide IsOffset;
    DistinctCount(stencil, v);
  }

  lemma {:induction false} SmallMultiset(m: multiset<int>, n: nat)
    requires forall j :: m[j] <= if 0 <= j < n then 1 else 0
    ensures |m| <= n
  {
    if n == 0 {
      assert forall j :: j in m ==> m[j] == 0;
    } else {
      SmallMultiset(m[n - 1 := 0], n - 1);
    }
  }

  /** No list is as long as the number of atoms. */
  lemma ListLength(g: BinGrid, a: Args, bin: seq<nat>, i: nat)
    requires Prepared(g, a, bin) && a.Readable(i) && i < a.nlocal
    ensures |a.List(i)| < |a.x|
  {
    var l := a.List(i);
    forall j ensures multiset(l + [i])[j] <= if 0 <= j < |a.x| then 1 else 0 {
      ListExact(g, a, bin, i, j);
    }
    hide Args.List;
    hide Prepared;
    SmallMultiset(multiset(l + [i]), |a.x|);
  }

  /** The first count entries of the list of i are in memory. */
  predicate InMemory(m: map<int, int>, nlocal: nat, i: nat, count: nat) {
    forall n: nat | n < count :: Cell(nlocal, i, n) in m
  }

  /** Entry n of the list of atom i, read back for n < count. */
  function Column(m: map<int, int>, nlocal: nat, i: nat, count: nat): seq<int>
    requires InMemory(m, nlocal, i, count)
  {
    seq(count, (n: nat) requires n < count => m[Cell(nlocal, i, n)])
  }

  /** The lists in memory are those the scans of a find. */
  ghost predicate Launched(a: Args, m: map<int, int>, numneigh: seq<nat>, done: set<nat>)
    requires |numneigh| == a.nlocal && forall i: nat | i < a.nlocal :: a.Readable(i)
  {
    && (forall i | i in done && i < a.nlocal :: numneigh[i] == |a.List(i)| && InColumn(m, a.nlocal, i, a.List(i)))
    && (forall c | c in m :: exists i: nat, n: nat :: Written(a, i, n, c))
  }

  ghost predicate Written(a: Args, i: nat, n: nat, c: int)
    requires forall i: nat | i < a.nlocal :: a.Readable(i)
  {
    i < a.nlocal && n < |a.List(i)| && c == Cell(a.nlocal, i, n)
  }

  lemma {:induction false} FilledKeys(m: map<int, int>, nlocal: nat, i: nat, l: seq<int>, c: int)
    requires c in Filled(m, nlocal, i, l)
    ensures c in m || exists n: nat :: n < |l| && c == Cell(nlocal, i, n)
  {
    if l != [] {
      var k := |l| - 1;
      if c != Cell(nlocal, i, k) { FilledKeys(m, nlocal, i, l[..k], c); }
    }
  }

  lemma ScanLaunched(a: Args, m: map<int, int>, numneigh: seq<nat>, done: set<nat>, i: nat)
    requires |numneigh| == a.nlocal && forall k: nat | k < a.nlocal :: a.Readable(k)
    requires i < a.nlocal && Launched(a, m, numneigh, done)
    ensures Launched(a, Filled(m, a.nlocal, i, a.List(i)), numneigh[i := |a.List(i)|], done + {i})
  {
    hide Args.List;
    hide Args.Readable;
    hide Cell;
    var m' := Filled(m, a.nlocal, i, a.List(i));
    FilledReads(m, a.nlocal, i, a.List(i));
    forall k | k in done && k < a.nlocal && k != i ensures InColumn(m', a.nlocal, k, a.List(k)) {
      FilledElsewhere(m, a.nlocal, i, a.List(i), k, a.List(k));
    }
    forall c | c in m' ensures exists i: nat, n: nat :: Written(a, i, n, c) {
      FilledKeys(m, a.nlocal, i, a.List(i), c);
      if c !in m {
        var n: nat :| n < |a.List(i)| && c == Cell(a.nlocal, i, n);
        assert Written(a, i, n, c);
      }
    }
  }

  function Below(n: nat): (s: set<nat>)
    ensures forall i: nat :: i in s <==> i < n
  {
    if n == 0 then {} else Below(n - 1) + {n - 1}
  }

  /** The whole launch of neighbor_build, in an order the scheduler chooses. */
  method Launch(o: Output)
    requires o.numneigh.Length == o.a.nlocal && o.neighbors == map[] && !o.flag
    requires forall i: nat | i < o.a.nlocal :: o.a.Readable(i)
    modifies o`neighbors, o`flag, o.numneigh
    ensures Launched(o.a, o.neighbors, o.numneigh[..], Below(o.a.nlocal))
    ensures o.flag <==> exists i: nat | i < o.a.nlocal :: |o.a.List(i)| > o.maxneighs
  {
    hide Args.List;
    hide Args.Readable;
    hide Cell;
    var all := Below(o.a.nlocal);
    var done: set<nat> := {};
    while done != all
      invariant done <= all
      invariant Launched(o.a, o.neighbors, o.numneigh[..], done)
      invariant o.flag <==> exists i: nat | i in done :: i < o.a.nlocal && |o.a.List(i)| > o.maxneighs
      decreases all - done
    {
      assert all - done != {};
      var i :| i in all - done;
      ScanLaunched(o.a, o.neighbors, o.numneigh[..], done, i);
      o.Scan(i);
      done := done + {i};
    }
  }

  /** What build promises: the lists in memory name, for each owned atom, exactly
      the other atoms within cutneigh whose bin its stencil meets, once each. */
  ghost predicate Agrees(g: BinGrid, x: seq<Vec>, nlocal: nat, numneigh: seq<nat>, m: map<int, int>)
    requires g.Valid()
  {
    && |numneigh| == nlocal <= |x|
    && forall i: nat | i < nlocal :: InMemory(m, nlocal, i, numneigh[i]) && Exact(g, x, i, Column(m, nlocal, i, numneigh[i]))
  }

  ghost predicate Exact(g: BinGrid, x: seq<Vec>, i: nat, l: seq<int>)
    requires g.Valid() && i < |x|
  {
    forall j :: multiset(l)[j] ==
      if 0 <= j < |x| && j != i && Scanned(g, x[i], x[j]) &&
              (var dx, dy, dz := x[i].x - x[j].x, x[i].y - x[j].y, x[i].z - x[j].z; dx * dx + dy * dy + dz * dz <= g.cut * g.cut)
            then 1 else 0
  }

  lemma ListIsExact(g: BinGrid, a: Args, bin: seq<nat>, i: nat)
    requires g.Valid() && Prepared(g, a, bin) && a.Readable(i) && i < a.nlocal && i < |a.x|
    ensures Exact(g, a.x, i, a.List(i))
  {
    hide Prepared;
    hide Args.List;
    hide Args.Readable;
    hide Scanned;
    forall j ensures multiset(a.List(i))[j] ==
      if 0 <= j < |a.x| && j != i && Scanned(g, a.x[i], a.x[j]) &&
              (var dx, dy, dz := a.x[i].x - a.x[j].x, a.x[i].y - a.x[j].y, a.x[i].z - a.x[j].z; dx * dx + dy * dy + dz * dz <= g.cut * g.cut)
            then 1 else 0
    {
      ListExact(g, a, bin, i, j);
    }
  }

  lemma ColumnRead(m: map<int, int>, nlocal: nat, i: nat, l: seq<int>)
    requires InColumn(m, nlocal, i, l)
    ensures InMemory(m, nlocal, i, |l|) && Column(m, nlocal, i, |l|) == l
  {
    hide Cell;
  }

  lemma LaunchedAgrees(g: BinGrid, a: Args, bin: seq<nat>, m: map<int, int>, numneigh: seq<nat>)
    requires Prepared(g, a, bin) && |numneigh| == a.nlocal && Sized(a)
    requires Launched(a, m, numneigh, Below(a.nlocal))
    ensures Agrees(g, a.x, a.nlocal, numneigh, m)
  {
    assert a.nlocal <= |a.x|;
    hide Prepared;
    hide Exact;
    hide InColumn;
    hide InMemory;
    hide Column;
    hide Args.List;
    hide Args.Readable;
    forall i: nat | i < a.nlocal ensures InMemory(m, a.nlocal, i, numneigh[i]) && Exact(g, a.x, i, Column(m, a.nlocal, i, numneigh[i])) {
      assert i in Below(a.nlocal);
      ListIsExact(g, a, bin, i);
      ColumnRead(m, a.nlocal, i, a.List(i));
    }
  }

  /** Every scan is possible, and finds fewer atoms than there are. */
  ghost predicate Sized(a: Args) {
    forall i: nat | i < a.nlocal :: a.Readable(i) && |a.List(i)| < |a.x|
  }

  lemma PreparedSized(g: BinGrid, a: Args, bin: seq<nat>)
    requires Prepared(g, a, bin) && g.Valid() && a.nlocal <= |a.x| && ScansInside(g, a.x, a.nlocal)
    ensures Sized(a)
  {
    AllReadable(g, a, bin);
    hide Prepared;
    hide ScansInside;
    hide Args.Readable;
    hide Args.List;
    forall i: nat | i < a.nlocal ensures a.Readable(i) && |a.List(i)| < |a.x| {
      ListLength(g, a, bin, i);
    }
  }

  /** Without the flag every store lies in the buffer of maxneighs rows. */
  lemma BufferFits(a: Args, m: map<int, int>, numneigh: seq<nat>, maxneighs: nat)
    requires |numneigh| == a.nlocal && Sized(a)
    requires Launched(a, m, numneigh, Below(a.nlocal))
    requires forall i: nat | i < a.nlocal :: |a.List(i)| <= maxneighs
    ensures forall i: nat | i < a.nlocal :: numneigh[i] <= maxneighs
    ensures forall c | c in m :: 0 <= c < maxneighs * a.nlocal
  {
    hide Args.List;
    hide Args.Readable;
    hide InColumn;
    forall i: nat | i < a.nlocal ensures numneigh[i] <= maxneighs {
      assert i in Below(a.nlocal);
    }
    forall c | c in m ensures 0 <= c < maxneighs * a.nlocal {
      var i: nat, n: nat :| Written(a, i, n, c);
      RowBounds(n, i, maxneighs, a.nlocal);
    }
  }

  /** maxneighs *= 1.5 on an int. */
  function Grown(maxneighs: nat): int { Trunc(maxneighs as real * 1.5) }

  lemma GrownLarger(n: nat)
    requires n >= 2
    ensures n < Grown(n) && 2 * Grown(n) <= 3 * n
  {}

  /** The loop of Neighbor::build: scan again with half as many entries more
      until all lists fit. It stops before lists are half as long again as the
      number of atoms. */
  method ScanUntilFit(a: Args, start: nat) returns (o: Output)
    requires Sized(a) && start >= 100
    ensures o.a == a && o.numneigh.Length == a.nlocal
    ensures Launched(a, o.neighbors, o.numneigh[..], Below(a.nlocal))
    ensures forall i: nat | i < a.nlocal :: |a.List(i)| <= o.maxneighs
    ensures o.maxneighs == start || (start < o.maxneighs && 2 * o.maxneighs < 3 * |a.x|)
  {
    hide Args.List;
    hide Args.Readable;
    hide Launched;
    var maxneighs := start;
    o := new Output(a, maxneighs);
    Launch(o);
    while o.flag
      invariant fresh(o) && fresh(o.numneigh) && o.a == a && o.maxneighs == maxneighs >= 100 && o.numneigh.Length == a.nlocal
      invariant maxneighs == start || (start < maxneighs && 2 * maxneighs < 3 * |a.x|)
      invariant Launched(a, o.neighbors, o.numneigh[..], Below(a.nlocal))
      invariant o.flag <==> exists i: nat | i < a.nlocal :: |a.List(i)| > maxneighs
      decreases |a.x| - maxneighs
    {
      GrownLarger(maxneighs);
      maxneighs := Grown(maxneighs);
      o := new Output(a, maxneighs);
      Launch(o);
    }
  }

  class Neighbor {
    const g: BinGrid
    var stencil: seq<int>
    var atomsPerBin: nat
    var maxneighs: nat
    var numneigh: seq<nat>
    var neighbors: map<int, int>

    ghost predicate Valid()
      reads this
    {
      g.Valid() && StencilOf(g, stencil) && atomsPerBin >= 8 && maxneighs >= 100
    }

    /** The constructor, and then setup. */
    constructor (g: BinGrid)
      requires g.Valid()
      ensures Valid() && this.g == g && maxneighs == 100 && atomsPerBin == 8
    {
      this.g, atomsPerBin, maxneighs, numneigh, neighbors := g, 8, 100, [], map[];
      new;
      stencil := BuildStencil(g);
    }

    /** binatoms, and the arguments it leaves for the scan. */
    method Bin(x: seq<Vec>, nlocal: nat) returns (a: Args, ghost bin: seq<nat>)
      requires Valid() && Held(g, x, nlocal)
      modifies this`atomsPerBin
      ensures Valid() && a.x == x && a.nlocal == nlocal && Prepared(g, a, bin)
      ensures atomsPerBin == old(atomsPerBin) || (old(atomsPerBin) < atomsPerBin < 2 * |x|)
    {
      hide StencilOf;
      hide Binned;
      hide BinGrid.MBins;
      hide BinGrid.Coord2Bin;
      hide BinGrid.Owns;
      hide BinGrid.Reaches;
      var binOf := BinsOf(g, x);
      bin := binOf;
      var d := BinAtoms(binOf, g.MBins(), atomsPerBin);
      atomsPerBin := d.job.cap;
      a := Args(x, nlocal, d.bincount[..], d.bins[..], d.ibins[..], stencil, Square(g.cut), atomsPerBin);
      assert d.job == Job(bin, g.MBins(), a.cap);
    }

    /** Neighbor::build: bin the atoms, and scan until all lists fit. */
    method Build(x: seq<Vec>, nlocal: nat)
      requires Valid() && Held(g, x, nlocal) && ScansInside(g, x, nlocal)
      modifies this`atomsPerBin, this`maxneighs, this`numneigh, this`neighbors
      ensures Valid() && Agrees(g, x, nlocal, numneigh, neighbors)
      ensures forall i :: 0 <= i < nlocal ==> numneigh[i] <= maxneighs
      ensures forall c | c in neighbors :: 0 <= c < maxneighs * nlocal
      ensures maxneighs == old(maxneighs) || (old(maxneighs) < maxneighs && 2 * maxneighs < 3 * |x|)
      ensures atomsPerBin == old(atomsPerBin) || (old(atomsPerBin) < atomsPerBin < 2 * |x|)
    {
      assert g.Valid() && nlocal <= |x|;
      hide StencilOf;
      hide ScansInside;
      hide Held;
      hide Prepared;
      hide BinGrid.Valid;
      hide Agrees;
      hide Launched;
      hide Args.List;
      hide Args.Readable;
      hide Exact;
      hide InMemory;
      hide InColumn;
      var a, bin := Bin(x, nlocal);
      PreparedSized(g, a, bin);
      var o := ScanUntilFit(a, maxneighs);
      maxneighs, numneigh, neighbors := o.maxneighs, o.numneigh[..], o.neighbors;
      LaunchedAgrees(g, a, bin, neighbors, numneigh);
      BufferFits(a, neighbors, numneigh, maxneighs);
    }
  }

  /** coord2bin of an atom the process holds. */
  function BinAt(g: BinGrid, p: Vec): (b: nat)
    requires g.Valid() && g.Reaches(p)
    ensures b == g.Coord2Bin(p) < g.MBins()
  {
    HeldBin(g, p);
    g.Coord2Bin(p)
  }

  function BinsOf(g: BinGrid, x: seq<Vec>): (bin: seq<nat>)
    requires g.Valid() && forall i :: 0 <= i < |x| ==> g.Reaches(x[i])
    ensures |bin| == |x| && forall i :: 0 <= i < |x| ==> bin[i] == BinAt(g, x[i])
  {
    seq(|x|, i requires 0 <= i < |x| => BinAt(g, x[i]))
  }
}
