/** Atom::pbc and Comm::exchange as each process runs them, in place on its arrays. */
module Migration {
  import opened Vec3
  import opened Grid
  import opened Exchange
  import opened Storage
  import opened Stored

  /** Atom::pbc. */
  method EnforcePbc(ax: V3<Axis>, a: array<Particle>, nlocal: nat)
    requires nlocal <= a.Length
    modifies a
    ensures a[..nlocal] == Pbc(ax, old(a[..nlocal])) && a[nlocal..] == old(a[nlocal..])
  {
    for i := 0 to nlocal
      invariant forall k | 0 <= k < i :: a[k] == PbcOne(ax, old(a[k]))
      invariant forall k | i <= k < a.Length :: a[k] == old(a[k])
    {
      var x, y, z := a[i].x.x, a[i].x.y, a[i].x.z;
      if x < 0.0 { x := x + ax.x.prd; }
      if x >= ax.x.prd { x := x - ax.x.prd; }
      if y < 0.0 { y := y + ax.y.prd; }
      if y >= ax.y.prd { y := y - ax.y.prd; }
      if z < 0.0 { z := z + ax.z.prd; }
      if z >= ax.z.prd { z := z - ax.z.prd; }
      a[i] := a[i].(x := V3(x, y, z));
    }
  }

  /** One step of the loop: go on, or pack the atom and fill its hole. */
  lemma DepartStep(s: seq<Particle>, i: nat, d: nat, lo: real, hi: real)
    requires d < 3 && i <= |s|
    ensures i == |s| ==> Depart(s, i, d, lo, hi) == (s, [])
    ensures i < |s| ==>
            var r := Depart(s, i, d, lo, hi);
            var xdim := s[i].x.At(d);
            if xdim < lo || xdim >= hi then
              var q := Depart(s[i := s[|s| - 1]][..|s| - 1], i, d, lo, hi);
              r.0 == q.0 && r.1 == [s[i]] + q.1
            else r == Depart(s, i + 1, d, lo, hi)
  {}

  /** The loop that packs the atoms outside lo..hi and fills each hole with the last
      atom. */
  method FillHoles(a: array<Particle>, count: nat, d: nat, lo: real, hi: real) returns (nlocal: nat, buf: seq<Particle>)
    requires d < 3 && count <= a.Length
    modifies a
    ensures var r := Depart(old(a[..count]), 0, d, lo, hi);
            nlocal <= count && a[..nlocal] == r.0 && buf == r.1
  {
    hide Depart;
    var i := 0;
    nlocal, buf := count, [];
    ghost var all := Depart(a[..count], 0, d, lo, hi);
    while i < nlocal
      invariant i <= nlocal <= count
      invariant var r := Depart(a[..nlocal], i, d, lo, hi); all.0 == r.0 && all.1 == buf + r.1
      decreases nlocal - i
    {
      var xdim := a[i].x.At(d);
      DepartStep(a[..nlocal], i, d, lo, hi);
      if xdim < lo || xdim >= hi {
        ghost var s := a[..nlocal];
        buf := buf + [a[i]];
        a[i] := a[nlocal - 1];
        nlocal := nlocal - 1;
        assert a[..nlocal] == s[i := s[|s| - 1]][..|s| - 1];
      } else {
        i := i + 1;
      }
    }
    DepartStep(a[..nlocal], i, d, lo, hi);
  }

  lemma {:induction false} AcceptAppend(s: seq<Particle>, t: seq<Particle>, d: nat, lo: real, hi: real)
    requires d < 3
    ensures Accept(s + t, d, lo, hi) == Accept(s, d, lo, hi) + Accept(t, d, lo, hi)
  {
    if t == [] {
      assert s + t == s;
    } else {
      assert (s + t)[..|s + t| - 1] == s + t[..|t| - 1];
      AcceptAppend(s, t[..|t| - 1], d, lo, hi);
    }
  }

  /** Atom::growarray: a larger array, and nothing copied. */
  method GrowArray(nmax: nat, junk: Junk<Particle>) returns (b: array<Particle>)
    ensures fresh(b) && b.Length == Grown(nmax) && b[..] == Fresh(Grown(nmax), Grown(nmax), junk)
  {
    var size := Grown(nmax);
    b := new Particle[size](i => junk(size, i));
  }

  lemma PutMore(s: Store<Particle>, vs: seq<Particle>, v: Particle, junk: Junk<Particle>)
    requires s.Valid()
    ensures PutAll(s, vs + [v], junk) == Put(PutAll(s, vs, junk), v, junk)
  {
    assert (vs + [v])[..|vs|] == vs;
  }

  /** Atom::unpack_exchange at index n, which grows the arrays when they are full. */
  method UnpackExchange(a: array<Particle>, n: nat, v: Particle, junk: Junk<Particle>) returns (b: array<Particle>)
    requires n <= a.Length
    modifies a
    ensures n < b.Length && (b == a || fresh(b))
    ensures Store(b[..n + 1], b.Length) == Put(Store(old(a[..n]), a.Length), v, junk)
  {
    b := a;
    ghost var s := a[..n];
    if n == a.Length {
      b := GrowArray(n, junk);
      s := Fresh(n, Grown(n), junk);
      assert b[..n] == s;
    }
    b[n] := v;
    assert b[..n + 1] == s + [v];
  }

  /** The loop that keeps the incoming atoms that are in lo..hi; b are the arrays
      afterwards. */
  method TakeIn(a: array<Particle>, nlocal: nat, recv: seq<Particle>, d: nat, lo: real, hi: real, junk: Junk<Particle>)
    returns (b: array<Particle>, n: nat)
    requires d < 3 && nlocal <= a.Length
    modifies a
    ensures n <= b.Length && (b == a || fresh(b))
    ensures Store(b[..n], b.Length) == PutAll(Store(old(a[..nlocal]), a.Length), Accept(recv, d, lo, hi), junk)
  {
    b, n := a, nlocal;
    ghost var start := Store(a[..nlocal], a.Length);
    StartPut(start, junk);
    hide PutAll;
    hide Put;
    for m := 0 to |recv|
      invariant n <= b.Length && (b == a || fresh(b))
      invariant Store(b[..n], b.Length) == PutAll(start, Accept(recv[..m], d, lo, hi), junk)
    {
      AcceptNext(recv, m, d, lo, hi);
      var value := recv[m].x.At(d);
      if value >= lo && value < hi {
        PutMore(start, Accept(recv[..m], d, lo, hi), recv[m], junk);
        b := UnpackExchange(b, n, recv[m], junk);
        n := n + 1;
      }
    }
    assert recv[..|recv|] == recv;
  }

  lemma AcceptNext(recv: seq<Particle>, m: nat, d: nat, lo: real, hi: real)
    requires d < 3 && m < |recv|
    ensures Accept(recv[..m + 1], d, lo, hi) ==
            if recv[m].x.At(d) >= lo && recv[m].x.At(d) < hi then Accept(recv[..m], d, lo, hi) + [recv[m]] else Accept(recv[..m], d, lo, hi)
  {
    assert recv[..m + 1][..m] == recv[..m];
  }

  lemma StartPut(s: Store<Particle>, junk: Junk<Particle>)
    requires s.Valid()
    ensures PutAll(s, [], junk) == s
  {}

  /** What c puts in buf_send in dimension d. */
  ghost function Leaving(m: Machine, d: nat, c: Proc): seq<Particle>
    requires m.Valid() && d < 3 && InGrid(m.r.ax, c)
  {
    m.Parted(d, c).1
  }

  /** Dimension d of the exchange, if it has several processes. */
  method ExchangeDimension(ax: V3<Axis>, me: Proc, d: nat, a: array<Particle>, count: nat, inbox: (nat, bool) -> seq<Particle>,
                           junk: Junk<Particle>, ghost m: Machine) returns (b: array<Particle>, nlocal: nat, sent: seq<Particle>)
    requires m.Valid() && m.r.ax == ax && InGrid(ax, me) && d < 3 && ax.At(d).procs > 1 && m.junk(me) == junk
    requires count <= a.Length && Store(a[..count], a.Length) == m.At(d, me)
    requires inbox(d, true) == Leaving(m, d, RightOf(ax, d, me)) && inbox(d, false) == Leaving(m, d, LeftOf(ax, d, me))
    modifies a
    ensures b == a || fresh(b)
    ensures nlocal <= b.Length && Store(b[..nlocal], b.Length) == m.At(d + 1, me) && sent == Leaving(m, d, me)
  {
    hide *;
    AxisIs(m, d);
    NextIs(m, d, me);
    var lo, hi := ax.At(d).Edge(me.At(d)), ax.At(d).Edge(me.At(d) + 1);
    nlocal, sent := FillHoles(a, count, d, lo, hi);
    var recv := inbox(d, true);
    if ax.At(d).procs > 2 {
      AcceptAppend(recv, inbox(d, false), d, lo, hi);
      recv := recv + inbox(d, false);
    }
    assert Accept(inbox(d, true), d, lo, hi) + [] == Accept(inbox(d, true), d, lo, hi);
    b, nlocal := TakeIn(a, nlocal, recv, d, lo, hi, junk);
  }

  lemma AxisIs(m: Machine, d: nat)
    requires m.Valid() && d < 3
    ensures m.r.ax.At(d).Valid() && m.r.ax.At(d).procs >= 1
  {}

  lemma LeavingIs(m: Machine, d: nat, c: Proc)
    requires m.Valid() && InGrid(m.r.ax, c) && d < 3
    ensures var lo, hi := m.r.ax.At(d).Edge(c.At(d)), m.r.ax.At(d).Edge(c.At(d) + 1);
            && m.Parted(d, c) == Depart(m.At(d, c).live, 0, d, lo, hi) && Leaving(m, d, c) == m.Parted(d, c).1
            && forall q | InGrid(m.r.ax, q) :: m.Taken(d, c, q) == Accept(Leaving(m, d, q), d, lo, hi)
  {
    hide Axis.Edge;
    hide Machine.At;
    hide Depart;
    hide Accept;
  }

  lemma NextIs(m: Machine, d: nat, c: Proc)
    requires m.Valid() && InGrid(m.r.ax, c) && d < 3 && m.r.ax.At(d).procs > 1
    ensures var lo, hi := m.r.ax.At(d).Edge(c.At(d)), m.r.ax.At(d).Edge(c.At(d) + 1);
            var p := Depart(m.At(d, c).live, 0, d, lo, hi);
            var R, L := RightOf(m.r.ax, d, c), LeftOf(m.r.ax, d, c);
            && InGrid(m.r.ax, R) && InGrid(m.r.ax, L) && Leaving(m, d, c) == p.1
            && Store(p.0, m.At(d, c).nmax).Valid()
            && m.At(d + 1, c) == PutAll(Store(p.0, m.At(d, c).nmax),
                 Accept(Leaving(m, d, R), d, lo, hi) + if m.r.ax.At(d).procs > 2 then Accept(Leaving(m, d, L), d, lo, hi) else [], m.junk(c))
  {
    InGridRow(m.r, d, c);
    AtNext(m, d, c);
    LeavingIs(m, d, c);
    hide Machine.At;
    hide Machine.Parted;
    hide Machine.Taken;
    hide Leaving;
    hide PutAll;
    hide Depart;
    hide Accept;
    hide Axis.Edge;
    hide RightOf;
    hide LeftOf;
  }

  /** Comm::exchange of one process, given that the others send what they would: it ends
      with its part of the whole machine's outcome, garbage included. */
  method ExchangeAtoms(ax: V3<Axis>, me: Proc, a: array<Particle>, count: nat, inbox: (nat, bool) -> seq<Particle>,
                       junk: Junk<Particle>, ghost m: Machine)
    returns (b: array<Particle>, nlocal: nat, sent: seq<seq<Particle>>)
    requires m.Valid() && m.r.ax == ax && InGrid(ax, me) && m.junk(me) == junk && a.Length == m.nmax(me)
    requires count <= a.Length && a[..count] == m.r.init(me)
    requires forall d: nat | d < 3 && ax.At(d).procs > 1 ::
               inbox(d, true) == Leaving(m, d, RightOf(ax, d, me)) && inbox(d, false) == Leaving(m, d, LeftOf(ax, d, me))
    modifies a
    ensures b == a || fresh(b)
    ensures nlocal <= b.Length && Store(b[..nlocal], b.Length) == m.At(3, me)
    ensures |sent| == 3 && forall d: nat | d < 3 && ax.At(d).procs > 1 :: sent[d] == Leaving(m, d, me)
  {
    hide *;
    StartIs(m, me);
    EnforcePbc(ax, a, count);
    b, nlocal, sent := a, count, [];
    for d := 0 to 3
      invariant b == a || fresh(b)
      invariant nlocal <= b.Length && Store(b[..nlocal], b.Length) == m.At(d, me)
      invariant |sent| == d && forall e: nat | e < d && ax.At(e).procs > 1 :: sent[e] == Leaving(m, e, me)
    {
      AxisIs(m, d);
      if ax.At(d).procs == 1 {
        AtSame(m, d, me);
        sent := sent + [[]];
      } else {
        var buf;
        b, nlocal, buf := ExchangeDimension(ax, me, d, b, nlocal, inbox, junk, m);
        sent := sent + [buf];
      }
    }
  }

  lemma StartIs(m: Machine, c: Proc)
    requires m.Valid() && InGrid(m.r.ax, c)
    ensures m.r.Valid() && m.At(0, c) == Store(Pbc(m.r.ax, m.r.init(c)), m.nmax(c))
  {}
}
