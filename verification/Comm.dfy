/** Class Comm: the loops each process runs, against what the whole machine does. */
module Comm {
  import opened Vec3
  import opened Grid
  import opened Borders
  import opened Swaps
  import opened Recording
  import opened Rounds
  import opened Storage
  import opened Ghosts

  class Comm {
    const ax: V3<Axis>
    const me: Proc
    const cut: real
    var slablo: seq<real>
    var slabhi: seq<real>
    var flag: seq<int>
    var log: seq<Entry>
    /** Atom's x of this process, own atoms and then ghosts; the size of the array it is
        in; and what fresh memory holds. */
    var x: seq<Copy>
    var nmax: nat
    const junk: Junk<Copy>

    constructor (ax: V3<Axis>, me: Proc, cut: real, junk: Junk<Copy>)
      ensures this.ax == ax && this.me == me && this.cut == cut && this.junk == junk
    {
      this.ax, this.me, this.cut, this.junk := ax, me, cut, junk;
      slablo, slabhi, flag, log, x, nmax := [], [], [], [], [], 0;
    }

    /** Slab and pbc flag of one swap, in the loop of Comm::setup. */
    method Slab(d: nat, ineed: nat) returns (lo: real, hi: real, pbc: int)
      requires d < 3 && InGrid(ax, me) && ax.At(d).Valid()
      ensures SlabIs(ax.At(d), me.At(d), ineed, cut, lo, hi, pbc)
    {
      var a, i := ax.At(d), me.At(d);
      hide Axis.Edge;
      if ineed % 2 == 0 {
        var nbox := i + ineed / 2;
        lo := a.Edge(nbox);
        hi := Min(a.Edge(i) + cut, a.Edge(nbox + 1));
        pbc := if i == 0 then 1 else 0;
      } else {
        var nbox := i - ineed / 2;
        hi := a.Edge(nbox + 1);
        lo := Max(a.Edge(i + 1) - cut, a.Edge(nbox));
        pbc := if i == a.procs - 1 then -1 else 0;
      }
    }

    /** The slabs of dimension d. */
    method SetupDimension(d: nat, ghost w: World)
      requires w.Valid() && w.ax == ax && w.cut == cut && InGrid(ax, me) && d < 3
      requires |slablo| == |slabhi| == |flag| == Start(w, d)
      modifies this`slablo, this`slabhi, this`flag
      ensures |slablo| == |slabhi| == |flag| == Start(w, d + 1)
      ensures old(slablo) <= slablo && old(slabhi) <= slabhi && old(flag) <= flag
      ensures Slabs(w, me, d, 2 * w.Hops(d), slablo, slabhi, flag)
    {
      NeedCovers(ax.At(d), cut);
      var need := ax.At(d).Need(cut);
      hide Axis.Need;
      hide SlabIs;
      for ineed := 0 to 2 * need
        invariant |slablo| == |slabhi| == |flag| == Start(w, d) + ineed
        invariant old(slablo) <= slablo && old(slabhi) <= slabhi && old(flag) <= flag
        invariant Slabs(w, me, d, ineed, slablo, slabhi, flag)
      {
        var lo, hi, pbc := Slab(d, ineed);
        SlabsMore(w, me, d, ineed, slablo, slabhi, flag, lo, hi, pbc);
        slablo, slabhi, flag := slablo + [lo], slabhi + [hi], flag + [pbc];
      }
    }

    /** Comm::setup from the slabs on. */
    method Setup(ghost w: World)
      requires w.Valid() && w.ax == ax && w.cut == cut && InGrid(ax, me)
      modifies this`slablo, this`slabhi, this`flag
      ensures forall d: nat | d < 3 :: Slabs(w, me, d, 2 * w.Hops(d), slablo, slabhi, flag)
    {
      hide Slabs;
      hide World.Hops;
      slablo, slabhi, flag := [], [], [];
      for d := 0 to 3
        invariant |slablo| == |slabhi| == |flag| == Start(w, d)
        invariant forall e: nat | e < d :: Slabs(w, me, e, 2 * w.Hops(e), slablo, slabhi, flag)
      {
        ghost var lo, hi, pbc := slablo, slabhi, flag;
        SetupDimension(d, w);
        forall e: nat | e < d ensures Slabs(w, me, e, 2 * w.Hops(e), slablo, slabhi, flag) {
          SlabsKept(w, me, e, 2 * w.Hops(e), lo, hi, pbc, slablo, slabhi, flag);
        }
      }
    }

    /** The packing loop of borders: pack_border and sendlist. */
    method PackBorder(d: nat, lo: real, hi: real, pbc: int, nfirst: nat, nlast: nat) returns (buf: seq<Copy>, list: seq<nat>)
      requires d < 3 && nfirst <= nlast <= |x|
      ensures buf == Sent(x[nfirst..nlast], d, lo, hi, pbc, ax.At(d).prd)
      ensures list == Picked(x, nfirst, nlast, d, lo, hi)
    {
      buf, list := [], [];
      for i := nfirst to nlast
        invariant buf == Sent(x[nfirst..i], d, lo, hi, pbc, ax.At(d).prd)
        invariant list == Picked(x, nfirst, i, d, lo, hi)
      {
        assert x[nfirst..i + 1][..i - nfirst] == x[nfirst..i];
        var xdim := x[i].x.At(d);
        if xdim >= lo && xdim < hi {
          NoShift(x[i], d, ax.At(d).prd);
          buf := buf + [if pbc == 0 then x[i] else Shift(x[i], d, pbc, ax.At(d).prd)];
          list := list + [i];
        }
      }
    }

    /** The unpacking loop of borders. unpack_border grows the array when it is full, and
        then keeps nothing of it. */
    method UnpackBorder(buf: seq<Copy>)
      requires |x| <= nmax
      modifies this`x, this`nmax
      ensures |x| <= nmax && Store(x, nmax) == PutAll(Store(old(x), old(nmax)), buf, junk)
    {
      for i := 0 to |buf|
        invariant |x| <= nmax && Store(x, nmax) == PutAll(Store(old(x), old(nmax)), buf[..i], junk)
      {
        assert buf[..i + 1][..i] == buf[..i];
        if |x| == nmax {
          x, nmax := Fresh(nmax, Grown(nmax), junk), Grown(nmax);
        }
        x := x + [buf[i]];
      }
      assert buf[..|buf|] == buf;
    }

    /** One swap. recv is what the process on the other side packed. */
    method Swap(d: nat, ineed: nat, nfirst: nat, nlast: nat, recv: seq<Copy>, ghost m: Machine)
      requires m.Valid() && m.w.ax == ax && m.w.cut == cut && InGrid(ax, me) && m.junk(me) == junk && d < 3 && ineed < 2 * m.w.Hops(d)
      requires Slabs(m.w, me, d, 2 * m.w.Hops(d), slablo, slabhi, flag)
      requires |x| <= nmax && Store(x, nmax) == m.At(d, ineed, me) && |log| == Start(m.w, d) + ineed
      requires nfirst == m.From(d, ineed, me) && nlast == m.To(d, ineed, me)
      requires recv == m.Packs(d, ineed, Sender(ax, d, ineed, me))
      modifies this`x, this`nmax, this`log
      ensures |x| <= nmax && Store(x, nmax) == m.At(d, ineed + 1, me)
      ensures log == old(log) + [EntryOf(m, me, d, ineed)]
    {
      var iswap := |log|;
      assert SlabAt(m.w.ax.At(d), me.At(d), ineed, m.w.cut, slablo, slabhi, flag, Start(m.w, d));
      var lo, hi, pbc := slablo[iswap], slabhi[iswap], flag[iswap];
      hide Machine.At;
      hide Machine.From;
      hide Machine.To;
      hide Machine.Packs;
      hide Start;
      hide Slabs;
      hide SlabLo;
      hide SlabHi;
      hide SlabFlag;
      hide World.Hops;
      hide World.Valid;
      hide PutAll;
      PacksIs(m, d, ineed, me);
      var buf, list := PackBorder(d, lo, hi, pbc, nfirst, nlast);
      SelfSwap(ax, d, ineed, me);
      var sending := buf;
      var sendproc := if ineed % 2 == 0 then LeftOf(ax, d, me) else RightOf(ax, d, me);
      if sendproc != me { buf := recv; }
      log := log + [Entry(list, |x|, |buf|, sending)];
      UnpackBorder(buf);
      AtNext(m, d, ineed, me);
    }

    /** The swaps of dimension d. */
    method BordersDimension(d: nat, inbox: (nat, nat) -> seq<Copy>, ghost m: Machine)
      requires m.Valid() && m.w.ax == ax && m.w.cut == cut && InGrid(ax, me) && m.junk(me) == junk && d < 3
      requires Slabs(m.w, me, d, 2 * m.w.Hops(d), slablo, slabhi, flag)
      requires |x| <= nmax && Store(x, nmax) == m.At(d, 0, me) && |log| == Start(m.w, d)
      requires forall n: nat | n < 2 * m.w.Hops(d) :: inbox(d, n) == m.Packs(d, n, Sender(ax, d, n, me))
      modifies this`x, this`nmax, this`log
      ensures |x| <= nmax && Store(x, nmax) == m.At(d, 2 * m.w.Hops(d), me)
      ensures |log| == Start(m.w, d + 1) && old(log) <= log && Wrote(m, me, d, 2 * m.w.Hops(d), log)
    {
      hide *;
      DimensionStarts(m, d, me, log);
      var need := ax.At(d).Need(cut);
      var nfirst: nat, nlast: nat := 0, 0;
      for ineed := 0 to 2 * need
        invariant |x| <= nmax && Store(x, nmax) == m.At(d, ineed, me)
        invariant if ineed % 2 == 0 then nlast == m.From(d, ineed, me) else nfirst == m.From(d, ineed, me) && nlast == m.To(d, ineed, me)
        invariant |log| == Start(m.w, d) + ineed && old(log) <= log && Wrote(m, me, d, ineed, log)
      {
        FromTo(m, d, ineed, me);
        if ineed % 2 == 0 {
          nfirst := nlast;
          nlast := |x|;
        }
        WroteMore(m, me, d, ineed, log);
        Swap(d, ineed, nfirst, nlast, inbox(d, ineed), m);
        FromTo(m, d, ineed + 1, me);
      }
    }

    /** Comm::borders of one process, given that the others send it what they would:
        it ends with its part of the whole machine's outcome, garbage included, and has
        sent the others what they rely on. If every process has room, that is the right
        outcome and the right record. */
    method Borders(own: seq<Copy>, inbox: (nat, nat) -> seq<Copy>, ghost m: Machine)
      requires m.Valid() && m.w.ax == ax && m.w.cut == cut && InGrid(ax, me) && m.junk(me) == junk && own == m.w.own(me) && nmax == m.nmax(me)
      requires forall d: nat | d < 3 :: Slabs(m.w, me, d, 2 * m.w.Hops(d), slablo, slabhi, flag)
      requires forall d: nat, n: nat | d < 3 && n < 2 * m.w.Hops(d) :: inbox(d, n) == m.Packs(d, n, Sender(ax, d, n, me))
      modifies this`x, this`nmax, this`log
      ensures Store(x, nmax) == m.Final(me)
      ensures |log| == Start(m.w, 3) && forall d: nat | d < 3 :: Wrote(m, me, d, 2 * m.w.Hops(d), log)
      ensures Fits(m.w, m.nmax) ==> x == m.w.Final(me) && forall d: nat | d < 3 :: Logged(m.w, me, d, 2 * m.w.Hops(d), log)
    {
      x, log := own, [];
      StartsAt(m, me);
      hide *;
      for d := 0 to 3
        invariant |x| <= nmax
        invariant d < 3 ==> Store(x, nmax) == m.At(d, 0, me)
        invariant d == 3 ==> Store(x, nmax) == m.Final(me)
        invariant |log| == Start(m.w, d) && forall e: nat | e < d :: Wrote(m, me, e, 2 * m.w.Hops(e), log)
      {
        ghost var l := log;
        BordersDimension(d, inbox, m);
        forall e: nat | e < d ensures Wrote(m, me, e, 2 * m.w.Hops(e), log) {
          WroteKept(m, me, e, 2 * m.w.Hops(e), l, log);
        }
      }
      BordersDone(m, me, log);
    }
  }

  lemma DimensionStarts(m: Machine, d: nat, c: Proc, log: seq<Entry>)
    requires m.Valid() && d < 3 && InGrid(m.w.ax, c) && |log| == Start(m.w, d)
    ensures m.w.Valid() && m.From(d, 0, c) == 0 && Wrote(m, c, d, 0, log)
    ensures Start(m.w, d + 1) == Start(m.w, d) + 2 * m.w.Hops(d)
    ensures m.w.ax.At(d).Valid() && m.w.Hops(d) == m.w.ax.At(d).Need(m.w.cut)
  {
    FromTo(m, d, 0, c);
    hide Axis.Need;
    hide Machine.At;
  }

  lemma StartsAt(m: Machine, c: Proc)
    requires m.Valid() && InGrid(m.w.ax, c)
    ensures m.w.Valid() && m.At(0, 0, c) == Store(m.w.own(c), m.nmax(c)) && |m.w.own(c)| <= m.nmax(c) && Start(m.w, 0) == 0
    ensures m.At(1, 0, c) == m.At(0, 2 * m.w.Hops(0), c) && m.At(2, 0, c) == m.At(1, 2 * m.w.Hops(1), c)
    ensures m.Final(c) == m.At(2, 2 * m.w.Hops(2), c)
  {
    StartIs(m, 0, c);
    StartIs(m, 1, c);
    StartIs(m, 2, c);
  }

  lemma BordersDone(m: Machine, c: Proc, log: seq<Entry>)
    requires m.Valid() && InGrid(m.w.ax, c) && forall d: nat | d < 3 :: Wrote(m, c, d, 2 * m.w.Hops(d), log)
    ensures Fits(m.w, m.nmax) ==> m.Final(c).live == m.w.Final(c) && forall d: nat | d < 3 :: Logged(m.w, c, d, 2 * m.w.Hops(d), log)
  {
    hide Wrote;
    hide Logged;
    hide SoFar;
    hide Fits;
    hide World.Final;
    hide World.Hops;
    hide Machine.Final;
    if Fits(m.w, m.nmax) {
      Kept(m, 2, 2 * m.w.Hops(2));
      FinalRight(m, c);
      forall d: nat | d < 3 ensures Logged(m.w, c, d, 2 * m.w.Hops(d), log) { WroteRight(m, c, d, log); }
    }
  }
}
