/** The swaps of a dimension one by one: slabs, what a process holds and packs, and its
    record of them. */
module Rounds {
  import opened Vec3
  import opened Grid
  import opened Borders
  import opened Swaps
  import opened Recording

  /** Swap n of a dimension goes left if n is even and right if it is odd, n / 2
      boxes away. */
  function SlabLo(a: Axis, i: nat, n: nat, cut: real): real
    requires a.Valid()
  {
    if n % 2 == 0 then a.LeftSlabLo(i, n / 2) else a.RightSlabLo(i, n / 2, cut)
  }

  function SlabHi(a: Axis, i: nat, n: nat, cut: real): real
    requires a.Valid()
  {
    if n % 2 == 0 then a.LeftSlabHi(i, n / 2, cut) else a.RightSlabHi(i, n / 2)
  }

  function SlabFlag(a: Axis, i: nat, n: nat): int {
    if n % 2 == 0 then a.LeftFlag(i) else a.RightFlag(i)
  }

  /** First swap of dimension d. */
  function Start(w: World, d: nat): nat
    requires w.Valid() && d <= 3
  {
    if d == 0 then 0 else Start(w, d - 1) + 2 * w.Hops(d - 1)
  }

  ghost function SwapAt(w: World, d: nat, n: nat): Swap
    requires w.Valid() && d < 3
  {
    SwapOf(w, d, n / 2, n % 2 == 0)
  }

  lemma {:induction false} MadeLength(w: World, d: nat, h: nat)
    requires w.Valid() && d < 3
    ensures |Made(w, d, h)| == Start(w, d) + 2 * h
    decreases d, h
  {
    hide World.Hops;
    if h > 0 { MadeLength(w, d, h - 1); } else if d > 0 { MadeLength(w, d - 1, w.Hops(d - 1)); }
  }

  /** Where the swaps of dimension e stand in the record. */
  lemma {:induction false} MadeAt(w: World, d: nat, h: nat, e: nat, n: nat)
    requires w.Valid() && e <= d < 3 && n < if e < d then 2 * w.Hops(e) else 2 * h
    ensures Start(w, e) + n < |Made(w, d, h)| && Made(w, d, h)[Start(w, e) + n] == SwapAt(w, e, n)
    decreases d, h
  {
    hide World.Hops;
    MadeLength(w, d, h);
    if h > 0 {
      MadeLength(w, d, h - 1);
      if e < d || n < 2 * (h - 1) { MadeAt(w, d, h - 1, e, n); }
    } else {
      MadeAt(w, d - 1, w.Hops(d - 1), e, n);
    }
  }

  /** What process c holds before swap n of dimension d. */
  function Stage(w: World, d: nat, n: nat, c: Proc): seq<Copy>
    requires w.Valid() && d < 3 && InGrid(w.ax, c)
  {
    w.Held(d, n / 2, c) + if n % 2 == 0 then [] else w.SendLeft(d, n / 2, RightOf(w.ax, d, c))
  }

  /** What it packs in swap n, and the process it receives from. */
  function Packs(w: World, d: nat, n: nat, c: Proc): seq<Copy>
    requires w.Valid() && d < 3 && InGrid(w.ax, c)
  {
    if n % 2 == 0 then w.SendLeft(d, n / 2, c) else w.SendRight(d, n / 2, c)
  }

  function Sender(ax: V3<Axis>, d: nat, n: nat, c: Proc): (p: Proc)
    requires d < 3 && InGrid(ax, c)
    ensures InGrid(ax, p)
  {
    if n % 2 == 0 then RightOf(ax, d, c) else LeftOf(ax, d, c)
  }

  lemma StageNext(w: World, d: nat, n: nat, c: Proc)
    requires w.Valid() && d < 3 && InGrid(w.ax, c)
    ensures Stage(w, d, n + 1, c) == Stage(w, d, n, c) + Packs(w, d, n, Sender(w.ax, d, n, c))
  {
    hide *;
    HeldParts(w, d, n / 2, c);
    StageIs(w, d, n, c);
    StageIs(w, d, n + 1, c);
    StageIs(w, d, n, Sender(w.ax, d, n, c));
  }

  lemma StageIs(w: World, d: nat, n: nat, c: Proc)
    requires w.Valid() && d < 3 && InGrid(w.ax, c)
    ensures Stage(w, d, n, c) == w.Held(d, n / 2, c) + if n % 2 == 0 then [] else w.SendLeft(d, n / 2, RightOf(w.ax, d, c))
    ensures Packs(w, d, n, c) == if n % 2 == 0 then w.SendLeft(d, n / 2, c) else w.SendRight(d, n / 2, c)
    ensures Sender(w.ax, d, n, c) == if n % 2 == 0 then RightOf(w.ax, d, c) else LeftOf(w.ax, d, c)
  {
    hide World.Held;
    hide World.SendLeft;
    hide World.SendRight;
  }

  /** Swap n of dimension d packs the entries nfirst..nlast that are in its slab. */
  lemma PacksPicked(w: World, d: nat, n: nat, c: Proc)
    requires w.Valid() && d < 3 && InGrid(w.ax, c)
    ensures var a, i, s, m := w.ax.At(d), c.At(d), w.Held(d, n / 2, c), First(w, d, n / 2, c);
            && Packs(w, d, n, c) == Sent(s[m..], d, SlabLo(a, i, n, w.cut), SlabHi(a, i, n, w.cut), SlabFlag(a, i, n), a.prd)
            && SwapAt(w, d, n).list(c) == Picked(s, m, |s|, d, SlabLo(a, i, n, w.cut), SlabHi(a, i, n, w.cut))
            && SwapAt(w, d, n).first(c) == |Stage(w, d, n, c)|
  {
    ScanRange(w, d, n / 2, c);
    hide World.Held;
    hide World.Scan;
    hide Axis.Edge;
    hide Picked;
    hide Sent;
  }

  lemma NoShift(p: Copy, d: nat, prd: real)
    requires d < 3
    ensures Shift(p, d, 0, prd) == p
  {}

  /** What a process records of a swap: the indices it sent, where what arrived
      begins, how much arrived, and the buffer it sent. */
  datatype Entry = Entry(sendlist: seq<nat>, firstrecv: nat, recvnum: nat, sent: seq<Copy>)

  ghost function EntryAt(w: World, c: Proc, d: nat, n: nat): Entry
    requires w.Valid() && d < 3 && InGrid(w.ax, c)
  {
    Entry(SwapAt(w, d, n).list(c), SwapAt(w, d, n).first(c), |Packs(w, d, n, Sender(w.ax, d, n, c))|, Packs(w, d, n, c))
  }

  /** The record of c is right for the first n swaps of dimension d. */
  ghost predicate Logged(w: World, c: Proc, d: nat, n: nat, log: seq<Entry>)
    requires w.Valid() && d < 3 && InGrid(w.ax, c)
  {
    Start(w, d) + n <= |log| && forall k: nat | k < n :: LoggedAt(w, c, d, k, log)
  }

  ghost predicate LoggedAt(w: World, c: Proc, d: nat, n: nat, log: seq<Entry>)
    requires w.Valid() && d < 3 && InGrid(w.ax, c)
  {
    Start(w, d) + n < |log| && log[Start(w, d) + n] == EntryAt(w, c, d, n)
  }

  /** The first n slabs of dimension d are set up. */
  ghost predicate Slabs(w: World, c: Proc, d: nat, n: nat, lo: seq<real>, hi: seq<real>, flag: seq<int>)
    requires w.Valid() && d < 3 && InGrid(w.ax, c)
  {
    var a, i, s := w.ax.At(d), c.At(d), Start(w, d);
    && s + n <= |lo| == |hi| == |flag|
    && forall k: nat | k < n :: SlabAt(a, i, k, w.cut, lo, hi, flag, s)
  }

  predicate SlabAt(a: Axis, i: nat, k: nat, cut: real, lo: seq<real>, hi: seq<real>, flag: seq<int>, s: nat)
    requires a.Valid()
  {
    s + k < |lo| == |hi| == |flag| && SlabIs(a, i, k, cut, lo[s + k], hi[s + k], flag[s + k])
  }

  predicate SlabIs(a: Axis, i: nat, n: nat, cut: real, lo: real, hi: real, flag: int)
    requires a.Valid()
  {
    lo == SlabLo(a, i, n, cut) && hi == SlabHi(a, i, n, cut) && flag == SlabFlag(a, i, n)
  }

  lemma SlabsKept(w: World, c: Proc, d: nat, n: nat, lo: seq<real>, hi: seq<real>, flag: seq<int>, lo': seq<real>, hi': seq<real>, flag': seq<int>)
    requires w.Valid() && d < 3 && InGrid(w.ax, c) && Slabs(w, c, d, n, lo, hi, flag)
    requires lo <= lo' && hi <= hi' && flag <= flag' && |lo'| == |hi'| == |flag'|
    ensures Slabs(w, c, d, n, lo', hi', flag')
  {
    hide SlabIs;
    hide Start;
    var a, i, s := w.ax.At(d), c.At(d), Start(w, d);
    forall k: nat | k < n ensures SlabAt(a, i, k, w.cut, lo', hi', flag', s) {
      assert SlabAt(a, i, k, w.cut, lo, hi, flag, s);
    }
  }

  lemma SlabsMore(w: World, c: Proc, d: nat, n: nat, lo: seq<real>, hi: seq<real>, flag: seq<int>, l: real, h: real, f: int)
    requires w.Valid() && d < 3 && InGrid(w.ax, c) && Slabs(w, c, d, n, lo, hi, flag) && |lo| == Start(w, d) + n
    requires SlabIs(w.ax.At(d), c.At(d), n, w.cut, l, h, f)
    ensures Slabs(w, c, d, n + 1, lo + [l], hi + [h], flag + [f])
  {
    SlabsKept(w, c, d, n, lo, hi, flag, lo + [l], hi + [h], flag + [f]);
    hide SlabIs;
    hide Start;
    var a, i, s := w.ax.At(d), c.At(d), Start(w, d);
    forall k: nat | k < n + 1 ensures SlabAt(a, i, k, w.cut, lo + [l], hi + [h], flag + [f], s) {}
  }

  lemma {:induction false} PickedPrefix(s: seq<Copy>, r: seq<Copy>, from: nat, to: nat, d: nat, lo: real, hi: real)
    requires from <= to <= |s| && d < 3 && s <= r
    ensures Picked(r, from, to, d, lo, hi) == Picked(s, from, to, d, lo, hi)
  {
    if from < to { PickedPrefix(s, r, from, to - 1, d, lo, hi); }
  }

  /** sendproc is this process exactly if recvproc is. */
  lemma SelfSwap(ax: V3<Axis>, d: nat, n: nat, c: Proc)
    requires d < 3 && InGrid(ax, c)
    ensures (if n % 2 == 0 then LeftOf(ax, d, c) else RightOf(ax, d, c)) == c <==> ax.At(d).procs == 1
    ensures Sender(ax, d, n, c) == c <==> ax.At(d).procs == 1
  {}

  lemma StageEnd(w: World, d: nat, c: Proc)
    requires w.Valid() && d < 3 && InGrid(w.ax, c)
    ensures Stage(w, d, 2 * w.Hops(d), c) == w.Held(d, w.Hops(d), c)
  {
    StageIs(w, d, 2 * w.Hops(d), c);
    hide World.Held;
    hide World.Hops;
    hide Stage;
  }
}
