/** exchange, borders and build one after the other, as a process runs them when the
    atoms have moved far enough. */
module Rebuild {
  import opened Vec3
  import opened Grid
  import opened Exchange
  import opened Borders
  import opened Stencil
  import opened Neighbor
  import opened Reneighbor
  import opened Rounds
  import opened Storage
  import opened Migration
  import opened Comm
  import Stored
  import Ghosts

  /** The machine as borders finds it: the atoms every process has by then, in arrays of
      the size they have grown to. */
  ghost function Onward(e: Stored.Machine, cut: real, junk: Proc -> Junk<Copy>): (m: Ghosts.Machine)
    requires e.Valid() && Stored.Fits(e.r, e.nmax, 3) && cut >= 0.0
    ensures m.Valid() && m.w == After(e.r, cut) && m.junk == junk && forall c | InGrid(e.r.ax, c) :: m.nmax(c) == e.At(3, c).nmax
  {
    var m := Ghosts.Machine(After(e.r, cut), SizeOf(e), junk);
    forall c | InGrid(e.r.ax, c) ensures |m.w.own(c)| <= m.nmax(c) { RoomOf(e, c); }
    AfterValid(e.r, cut);
    m
  }

  ghost function SizeOf(e: Stored.Machine): Proc -> nat
    requires e.Valid()
  {
    (c: Proc) => if InGrid(e.r.ax, c) then e.At(3, c).nmax else 0
  }

  lemma RoomOf(e: Stored.Machine, c: Proc)
    requires e.Valid() && Stored.Fits(e.r, e.nmax, 3) && InGrid(e.r.ax, c)
    ensures e.At(3, c).live == e.r.Local(3, c) && |e.r.Local(3, c)| <= e.At(3, c).nmax
  {
    Stored.Same(e, 3, c);
  }

  lemma AfterValid(r: Run, cut: real)
    requires r.Valid() && cut >= 0.0
    ensures After(r, cut).Valid()
  {}

  /** Process me has what it needs: the machine is the one its neighbours run, no process
      overflows its arrays, and no scan of its bins can reach their far corner. */
  ghost predicate Set(e: Stored.Machine, m: Ghosts.Machine, part: map<int, Particle>, nbin: V3<nat>, me: Proc, g: BinGrid) {
    && e.Valid() && Ready(e.r, part) && Stored.Fits(e.r, e.nmax, 3) && m.w.cut > 0.0 && m == Onward(e, m.w.cut, m.junk)
    && Ghosts.Fits(m.w, m.nmax) && InGrid(e.r.ax, me) && nbin.x >= 1 && nbin.y >= 1 && nbin.z >= 1
    && g == GridOf(m.w, nbin, me) && g.Valid() && !Cornered(g)
  }

  lemma SetParts(e: Stored.Machine, m: Ghosts.Machine, part: map<int, Particle>, nbin: V3<nat>, me: Proc, g: BinGrid)
    requires Set(e, m, part, nbin, me, g)
    ensures e.Valid() && m.Valid() && m.w == After(e.r, m.w.cut) && m.w.ax == e.r.ax && InGrid(e.r.ax, me) && Ghosts.Fits(m.w, m.nmax)
    ensures e.At(3, me).live == e.r.Local(3, me) && m.w.own(me) == Own(e.r.Local(3, me)) && m.nmax(me) == e.At(3, me).nmax
    ensures g == GridOf(m.w, nbin, me) && g.Valid() && e.r.Valid() && m.w.cut >= 0.0
  {
    RoomOf(e, me);
    hide Ready;
    hide Cornered;
    hide GridOf;
    hide Ghosts.Fits;
  }

  /** What borders leaves can be binned and scanned. */
  lemma SetHeld(e: Stored.Machine, m: Ghosts.Machine, part: map<int, Particle>, nbin: V3<nat>, me: Proc, g: BinGrid)
    requires Set(e, m, part, nbin, me, g)
    ensures m.w.Valid() && InGrid(m.w.ax, me) && g.Valid()
    ensures var x, nlocal := Positions(m.w.Final(me)), |e.r.Local(3, me)|;
            nlocal <= |x| && Held(g, x, nlocal) && ScansInside(g, x, nlocal)
  {
    SetParts(e, m, part, nbin, me, g);
    OwnedAfter(e.r, part, m.w.cut);
    BordersHeld(m.w, Base(part), nbin, me);
    CornerlessInside(g);
    hide Held;
    hide ScansInside;
    hide Cornered;
  }

  /** One reneighbouring of process me, given that the others send it what they would: its
      lists are those of EndToEnd. */
  method Renew(comm: Comm, neighbor: Neighbor, a: array<Particle>, count: nat, junk: Junk<Particle>,
               atoms: (nat, bool) -> seq<Particle>, ghosts: (nat, nat) -> seq<Copy>,
               ghost e: Stored.Machine, ghost m: Ghosts.Machine, ghost part: map<int, Particle>, ghost nbin: V3<nat>)
    requires Set(e, m, part, nbin, comm.me, neighbor.g) && neighbor.Valid()
    requires comm.ax == e.r.ax && comm.cut == m.w.cut && m.w.Valid() && e.junk(comm.me) == junk && m.junk(comm.me) == comm.junk
    requires count <= a.Length == e.nmax(comm.me) && a[..count] == e.r.init(comm.me)
    requires forall d: nat | d < 3 :: Slabs(m.w, comm.me, d, 2 * m.w.Hops(d), comm.slablo, comm.slabhi, comm.flag)
    requires forall d: nat | d < 3 && comm.ax.At(d).procs > 1 ::
               && atoms(d, true) == Leaving(e, d, RightOf(comm.ax, d, comm.me))
               && atoms(d, false) == Leaving(e, d, LeftOf(comm.ax, d, comm.me))
    requires m.Valid() && forall d: nat, n: nat | d < 3 && n < 2 * m.w.Hops(d) :: ghosts(d, n) == m.Packs(d, n, Sender(comm.ax, d, n, comm.me))
    modifies comm, neighbor, a
    ensures e.r.Valid() && InGrid(e.r.ax, comm.me) && comm.cut >= 0.0
    ensures Built(e.r, comm.cut, nbin, comm.me, neighbor.numneigh, neighbor.neighbors)
  {
    hide *;
    SetParts(e, m, part, nbin, comm.me, neighbor.g);
    SetHeld(e, m, part, nbin, comm.me, neighbor.g);
    var b, nlocal, sent := ExchangeAtoms(comm.ax, comm.me, a, count, atoms, junk, e);
    comm.nmax := b.Length;
    comm.Borders(Own(b[..nlocal]), ghosts, m);
    neighbor.Build(Positions(comm.x), nlocal);
    IsBuilt(e, m, nbin, comm.me, neighbor.numneigh, neighbor.neighbors);
  }

  lemma IsBuilt(e: Stored.Machine, m: Ghosts.Machine, nbin: V3<nat>, c: Proc, numneigh: seq<nat>, l: map<int, int>)
    requires e.r.Valid() && InGrid(e.r.ax, c) && m.w.cut >= 0.0 && m.w == After(e.r, m.w.cut) && m.w.Valid() && GridOf(m.w, nbin, c).Valid()
    requires Agrees(GridOf(m.w, nbin, c), Positions(m.w.Final(c)), |e.r.Local(3, c)|, numneigh, l)
    ensures Built(e.r, m.w.cut, nbin, c, numneigh, l)
  {
    hide Agrees;
    hide GridOf;
  }
}
