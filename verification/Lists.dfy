/** Neighbour lists: the stencil loop of Neighbor::setup, the neighbor_build
    kernel, and the host loop of Neighbor::build that enlarges the lists. */
module Lists {
  import opened Vec3
  import opened Bins
  import opened Rows
  import opened Stencil
  import opened Binning

  /** Offset o comes before offset e in the order of setup's loops. */
  predicate Before(o: V3<int>, e: V3<int>) {
    o.z < e.z || (o.z == e.z && (o.y < e.y || (o.y == e.y && o.x < e.x)))
  }

  /** The stencil entries, and the offsets they stand for, that the loops have
      produced when they reach e. */
  ghost predicate Collected(g: BinGrid, stencil: seq<int>, offs: seq<V3<int>>, e: V3<int>)
    requires g.Valid()
  {
    && |stencil| == |offs|
    && (forall n :: 0 <= n < |offs| ==> stencil[n] == g.Flat(offs[n]))
    && (forall o :: o in offs <==> g.InStencil(o) && Before(o, e))
    && (forall m, n :: 0 <= m < n < |offs| ==> Before(offs[m], offs[n]))
  }

  lemma CollectedAs(g: BinGrid, stencil: seq<int>, offs: seq<V3<int>>, e: V3<int>, e': V3<int>)
    requires g.Valid() && Collected(g, stencil, offs, e)
    requires forall o | g.InBlock(o) :: Before(o, e) <==> Before(o, e')
    ensures Collected(g, stencil, offs, e')
  {}

  lemma CollectedMore(g: BinGrid, stencil: seq<int>, offs: seq<V3<int>>, e: V3<int>)
    requires g.Valid() && Collected(g, stencil, offs, e)
    ensures g.InStencil(e) ==> Collected(g, stencil + [g.Flat(e)], offs + [e], e.(x := e.x + 1))
    ensures !g.InStencil(e) ==> Collected(g, stencil, offs, e.(x := e.x + 1))
  {
    hide BinGrid.InStencil;
    hide BinGrid.Flat;
    forall o ensures Before(o, e.(x := e.x + 1)) <==> Before(o, e) || o == e {}
  }

  /** Flattening keeps the order of the loops. */
  lemma FlatOrder(g: BinGrid, o: V3<int>, e: V3<int>)
    requires g.Valid() && g.InBlock(o) && g.InBlock(e) && Before(o, e)
    ensures g.Flat(o) < g.Flat(e)
  {
    hide BinAxis.Next;
    hide BinAxis.M;
    hide BinGrid.Flat;
    BlockFits(g.ax.x);
    BlockFits(g.ax.y);
    FlatOrdered(g, o, e);
  }

  lemma FlatOrdered(g: BinGrid, o: V3<int>, e: V3<int>)
    requires g.Valid() && Before(o, e)
    requires -g.ax.x.M() < o.x - e.x < g.ax.x.M()
    requires -g.ax.y.M() < o.y - e.y < g.ax.y.M()
    ensures g.Flat(o) < g.Flat(e)
  {
    var m := Sizes(g);
    hide BinAxis.M;
    FlatRows(o.z, o.y, o.x, m.x, m.y);
    FlatRows(e.z, e.y, e.x, m.x, m.y);
    if o.z < e.z || o.y < e.y { RowsOrdered(o.z, o.y, e.z, e.y, m.y); }
    RowsOrdered(o.z * m.y + o.y, o.x, e.z * m.y + e.y, e.x, m.x);
  }

  /** v is the flattened form of some offset of the stencil. */
  ghost predicate IsOffset(g: BinGrid, v: int)
    requires g.Valid()
  {
    exists o :: g.InStencil(o) && g.Flat(o) == v
  }

  /** The stencil setup builds: all offsets whose bin can hold an atom closer than
      cutneigh, flattened, in increasing order, so without repetition. */
  ghost predicate StencilOf(g: BinGrid, stencil: seq<int>)
    requires g.Valid()
  {
    && (forall m, n :: 0 <= m < n < |stencil| ==> stencil[m] < stencil[n])
    && (forall v :: v in stencil <==> IsOffset(g, v))
  }

  lemma CollectedAll(g: BinGrid, stencil: seq<int>, offs: seq<V3<int>>, e: V3<int>)
    requires g.Valid() && Collected(g, stencil, offs, e) && forall o | g.InBlock(o) :: Before(o, e)
    ensures StencilOf(g, stencil)
  {
    hide BinGrid.BinDist;
    hide BinGrid.Flat;
    hide BinAxis.Next;
    forall m, n | 0 <= m < n < |stencil| ensures stencil[m] < stencil[n] {
      assert offs[m] in offs && offs[n] in offs;
      FlatOrder(g, offs[m], offs[n]);
    }
    forall v ensures v in stencil <==> IsOffset(g, v) {
      if v in stencil {
        var n :| 0 <= n < |stencil| && stencil[n] == v;
        assert offs[n] in offs;
      }
      if IsOffset(g, v) {
        var o :| g.InStencil(o) && g.Flat(o) == v;
        assert o in offs;
        var n :| 0 <= n < |offs| && offs[n] == o;
        assert stencil[n] == v;
      }
    }
  }

  /** The three loops of setup. */
  method BuildStencil(g: BinGrid) returns (stencil: seq<int>)
    requires g.Valid()
    ensures StencilOf(g, stencil)
  {
    var nx, ny, nz := g.ax.x.Next(), g.ax.y.Next(), g.ax.z.Next();
    NextReach(g.ax.x);
    NextReach(g.ax.y);
    NextReach(g.ax.z);
    hide Collected;
    hide BinGrid.InStencil;
    hide BinAxis.Next;
    hide BinAxis.M;
    hide Mul;
    stencil := [];
    ghost var offs: seq<V3<int>> := [];
    var k := -nz;
    Nothing(g, V3(-nx, -ny, k));
    while k <= nz
      invariant -nz <= k <= nz + 1
      invariant Collected(g, stencil, offs, V3(-nx, -ny, k))
    {
      var j := -ny;
      while j <= ny
        invariant -ny <= j <= ny + 1
        invariant Collected(g, stencil, offs, V3(-nx, j, k))
      {
        var i := -nx;
        while i <= nx
          invariant -nx <= i <= nx + 1
          invariant Collected(g, stencil, offs, V3(i, j, k))
        {
          var o := V3(i, j, k);
          CollectedMore(g, stencil, offs, o);
          InLoops(g, o);
          if g.BinDist(o) < Square(g.cut) {
            stencil := stencil + [k * g.ax.y.M() * g.ax.x.M() + j * g.ax.x.M() + i];
            offs := offs + [o];
          }
          i := i + 1;
        }
        CollectedAs(g, stencil, offs, V3(i, j, k), V3(-nx, j + 1, k));
        j := j + 1;
      }
      CollectedAs(g, stencil, offs, V3(-nx, j, k), V3(-nx, -ny, k + 1));
      k := k + 1;
    }
    CollectedAll(g, stencil, offs, V3(-nx, -ny, k));
  }

  lemma InLoops(g: BinGrid, o: V3<int>)
    requires g.Valid() && g.InBlock(o)
    ensures g.InStencil(o) <==> g.BinDist(o) < Square(g.cut)
  {}

  lemma Nothing(g: BinGrid, e: V3<int>)
    requires g.Valid() && forall o | g.InBlock(o) :: !Before(o, e)
    ensures Collected(g, [], [], e)
  {}

  /** What the neighbor_build kernel reads. */
  datatype Args = Args(x: seq<Vec>, nlocal: nat, bincount: seq<nat>, bins: seq<int>, ibins: seq<int>,
                       stencil: seq<int>, cutsq: real, cap: nat) {

    /** Every index the scan of atom i uses lies inside its array. */
    ghost predicate Readable(i: nat) {
      && i < nlocal <= |x| && |ibins| == |x|
      && (forall k :: 0 <= k < |stencil| ==> BinReadable(ibins[i] + stencil[k]))
    }

    ghost predicate BinReadable(b: int) {
      && 0 <= b < |bincount| && bincount[b] <= cap && b * cap + bincount[b] <= |bins|
      && Atoms(Slots(bincount, bins, cap, b))
    }

    predicate Atoms(s: seq<int>) { forall m :: 0 <= m < |s| ==> 0 <= s[m] < |x| }

    /** The test on a candidate j of atom i. */
    predicate Accepts(i: nat, j: nat)
      requires i < |x| && j < |x|
    {
      Dist2(x[i], x[j]) <= cutsq && j != i
    }

    /** The candidates that pass the test, in order. */
    function Passed(i: nat, s: seq<int>): seq<int>
      requires i < |x| && Atoms(s)
    {
      if s == [] then [] else
        Passed(i, s[..|s| - 1]) + if Accepts(i, s[|s| - 1]) then [s[|s| - 1]] else []
    }

    /** What the scan of the first k stencil bins finds for atom i. */
    ghost function Found(i: nat, k: nat): seq<int>
      requires Readable(i) && k <= |stencil|
    {
      if k == 0 then [] else Found(i, k - 1) + Passed(i, Slots(bincount, bins, cap, ibins[i] + stencil[k - 1]))
    }

    /** The neighbour list of atom i. */
    ghost function List(i: nat): seq<int>
      requires Readable(i)
    {
      Found(i, |stencil|)
    }
  }

  lemma {:induction false} PassedCount(a: Args, i: nat, s: seq<int>, j: int)
    requires i < |a.x| && a.Atoms(s)
    ensures multiset(a.Passed(i, s))[j] == if 0 <= j < |a.x| && a.Accepts(i, j) then multiset(s)[j] else 0
  {
    if s != [] {
      var n := |s| - 1;
      assert s == s[..n] + [s[n]];
      assert multiset(s) == multiset(s[..n]) + multiset{s[n]};
      PassedCount(a, i, s[..n], j);
    }
  }

  /** Where entry n of the list of atom i is stored. */
  function Cell(nlocal: nat, i: nat, n: nat): nat { i + n * nlocal }

  /** Memory after list l is stored in the column of atom i, one entry per row of
      nlocal cells. */
  ghost function Filled(m: map<int, int>, nlocal: nat, i: nat, l: seq<int>): map<int, int> {
    if l == [] then m else
      var n := |l| - 1;
      Filled(m, nlocal, i, l[..n])[Cell(nlocal, i, n) := l[n]]
  }

  /** The column of atom i begins with l. */
  ghost predicate InColumn(m: map<int, int>, nlocal: nat, i: nat, l: seq<int>) {
    forall n :: 0 <= n < |l| ==> Cell(nlocal, i, n) in m && m[Cell(nlocal, i, n)] == l[n]
  }

  lemma {:induction false} FilledReads(m: map<int, int>, nlocal: nat, i: nat, l: seq<int>)
    requires i < nlocal
    ensures InColumn(Filled(m, nlocal, i, l), nlocal, i, l)
  {
    if l != [] {
      var k := |l| - 1;
      FilledReads(m, nlocal, i, l[..k]);
      forall n | 0 <= n < k ensures Cell(nlocal, i, n) != Cell(nlocal, i, k) {
        if Cell(nlocal, i, n) == Cell(nlocal, i, k) { RowsDiffer(n, i, k, i, nlocal); }
      }
      var s := Filled(m, nlocal, i, l[..k]);
      assert forall n :: 0 <= n < k ==> Cell(nlocal, i, n) in s && s[Cell(nlocal, i, n)] == l[..k][n];
    }
  }

  /** Work items store in different columns, so none disturbs another. */
  lemma {:induction false} FilledElsewhere(m: map<int, int>, nlocal: nat, i: nat, l: seq<int>, i': nat, l': seq<int>)
    requires i < nlocal && i' < nlocal && i != i' && InColumn(m, nlocal, i', l')
    ensures InColumn(Filled(m, nlocal, i, l), nlocal, i', l')
  {
    if l != [] {
      var k := |l| - 1;
      FilledElsewhere(m, nlocal, i, l[..k], i', l');
      forall n | 0 <= n < |l'| ensures Cell(nlocal, i', n) != Cell(nlocal, i, k) {
        if Cell(nlocal, i', n) == Cell(nlocal, i, k) { RowsDiffer(n, i', k, i, nlocal); }
      }
    }
  }

  lemma PassedNext(a: Args, i: nat, s: seq<int>, m: nat, l: seq<int>)
    requires i < |a.x| && a.Atoms(s) && m < |s|
    ensures l + a.Passed(i, s[..m + 1]) ==
            if a.Accepts(i, s[m]) then l + a.Passed(i, s[..m]) + [s[m]] else l + a.Passed(i, s[..m])
  {
    assert s[..m + 1][..m] == s[..m];
  }

  lemma FilledNone(m: map<int, int>, nlocal: nat, i: nat)
    ensures Filled(m, nlocal, i, []) == m
  {}

  lemma FilledNext(m: map<int, int>, nlocal: nat, i: nat, l: seq<int>, j: int)
    ensures Filled(m, nlocal, i, l + [j]) == Filled(m, nlocal, i, l)[Cell(nlocal, i, |l|) := j]
  {
    assert (l + [j])[..|l|] == l;
  }

  /** Global memory written by the launch of neighbor_build. A column can run past
      the buffer before the kernel notices, so memory is a map. */
  class Output {
    const a: Args
    const maxneighs: nat
    var neighbors: map<int, int>
    var numneigh: array<nat>
    var flag: bool

    constructor (a: Args, maxneighs: nat)
      ensures this.a == a && this.maxneighs == maxneighs && neighbors == map[] && !flag && fresh(numneigh) && numneigh.Length == a.nlocal
    {
      this.a, this.maxneighs, neighbors, flag := a, maxneighs, map[], false;
      numneigh := new nat[a.nlocal](_ => 0);
    }

    /** The inner loop: the atoms of bin jbin, of which f are the neighbours found
        before. */
    method ScanBin(i: nat, jbin: int, found: nat, ghost before: map<int, int>, ghost f: seq<int>) returns (n: nat)
      requires i < |a.x| && a.BinReadable(jbin)
      requires found == |f| && neighbors == Filled(before, a.nlocal, i, f)
      modifies this`neighbors
      ensures var l := f + a.Passed(i, Slots(a.bincount, a.bins, a.cap, jbin));
              n == |l| && neighbors == Filled(before, a.nlocal, i, l)
    {
      n := found;
      ghost var s := Slots(a.bincount, a.bins, a.cap, jbin);
      assert f + a.Passed(i, s[..0]) == f;
      RowStart(jbin, jbin + 1, a.cap);
      for m := 0 to a.bincount[jbin]
        invariant n == |f + a.Passed(i, s[..m])|
        invariant neighbors == Filled(before, a.nlocal, i, f + a.Passed(i, s[..m]))
      {
        var j := a.bins[jbin * a.cap + m];
        assert a.Atoms(s) && m < |s| && j == s[m] && 0 <= j < |a.x|;
        ghost var l, l' := f + a.Passed(i, s[..m]), f + a.Passed(i, s[..m + 1]);
        PassedNext(a, i, s, m, f);
        hide *;
        FilledNext(before, a.nlocal, i, l, j);
        if a.Accepts(i, j) {
          neighbors := neighbors[Cell(a.nlocal, i, n) := j];
          n := n + 1;
          assert l' == l + [j];
        }
      }
      assert s[..a.bincount[jbin]] == s;
    }

    /** Work item i. */
    method Scan(i: nat)
      requires a.Readable(i) && numneigh.Length == a.nlocal
      modifies this`neighbors, this`flag, numneigh
      ensures neighbors == Filled(old(neighbors), a.nlocal, i, a.List(i))
      ensures numneigh[..] == old(numneigh[..])[i := |a.List(i)|]
      ensures flag <==> old(flag) || |a.List(i)| > maxneighs
    {
      hide Args.BinReadable;
      hide Args.Passed;
      hide Filled;
      hide Slots;
      assert Filled(neighbors, a.nlocal, i, []) == neighbors by { FilledNone(neighbors, a.nlocal, i); }
      var ibin := a.ibins[i];
      var n := 0;
      for k := 0 to |a.stencil|
        invariant n == |a.Found(i, k)|
        invariant neighbors == Filled(old(neighbors), a.nlocal, i, a.Found(i, k))
        invariant numneigh[..] == old(numneigh[..]) && flag == old(flag)
      {
        n := ScanBin(i, ibin + a.stencil[k], n, old(neighbors), a.Found(i, k));
      }
      numneigh[i] := n;
      if n > maxneighs { flag := true; }
    }
  }
}
