/** The ghost-atom swaps of Comm::borders, for all processes in lockstep. */
module Borders {
  import opened Vec3
  import opened Grid

  /** Which periodic image of which atom an array entry is. */
  datatype Tag = Tag(id: int, k: V3<int>)

  /** An array entry: the position the program stores, and the image it stands
      for. No branch below looks at the tag. */
  datatype Copy = Copy(x: Vec, tag: Tag)

  /** Atom::pack_border across the low or high boundary of dimension d. */
  function Shift(p: Copy, d: nat, flag: int, prd: real): Copy
    requires d < 3
  {
    Copy(p.x.Set(d, p.x.At(d) + Mul(flag, prd)),
         p.tag.(k := p.tag.k.Set(d, p.tag.k.At(d) + flag)))
  }

  predicate InSlab(p: Copy, d: nat, lo: real, hi: real)
    requires d < 3
  {
    lo <= p.x.At(d) < hi
  }

  /** The buffer packed from the entries of s that lie in the slab, in order. */
  function Sent(s: seq<Copy>, d: nat, lo: real, hi: real, flag: int, prd: real): seq<Copy>
    requires d < 3
  {
    if s == [] then [] else
      var n := |s| - 1;
      Sent(s[..n], d, lo, hi, flag, prd) +
      if InSlab(s[n], d, lo, hi) then [Shift(s[n], d, flag, prd)] else []
  }

  /** The whole machine: the processor grid, cutneigh, and each process's own
      atoms when borders is called. */
  datatype World = World(ax: V3<Axis>, cut: real, own: Proc -> seq<Copy>) {

    ghost predicate Valid() {
      ax.x.Valid() && ax.y.Valid() && ax.z.Valid() && cut >= 0.0
    }

    function Hops(d: nat): nat
      requires Valid() && d < 3
    {
      NeedCovers(ax.At(d), cut);
      ax.At(d).Need(cut)
    }

    /** What process c packs in the even (leftward) swap of hop h. */
    function SendLeft(d: nat, h: nat, c: Proc): seq<Copy>
      requires Valid() && d < 3 && InGrid(ax, c)
      decreases d, h, 2
    {
      var a := ax.At(d);
      Sent(Scan(d, h, c), d, a.LeftSlabLo(c.At(d), h), a.LeftSlabHi(c.At(d), h, cut),
           a.LeftFlag(c.At(d)), a.prd)
    }

    /** What process c packs in the odd (rightward) swap of hop h. */
    function SendRight(d: nat, h: nat, c: Proc): seq<Copy>
      requires Valid() && d < 3 && InGrid(ax, c)
      decreases d, h, 2
    {
      var a := ax.At(d);
      Sent(Scan(d, h, c), d, a.RightSlabLo(c.At(d), h, cut), a.RightSlabHi(c.At(d), h),
           a.RightFlag(c.At(d)), a.prd)
    }

    /** Ghosts that arrive at c in hop h: first from the right, then the left. */
    function Arrivals(d: nat, h: nat, c: Proc): seq<Copy>
      requires Valid() && d < 3 && InGrid(ax, c)
      decreases d, h, 3
    {
      SendLeft(d, h, RightOf(ax, d, c)) + SendRight(d, h, LeftOf(ax, d, c))
    }

    /** The entries nfirst..nlast scanned in hop h. */
    function Scan(d: nat, h: nat, c: Proc): seq<Copy>
      requires Valid() && d < 3 && InGrid(ax, c)
      decreases d, h, 1
    {
      if h == 0 then Held(d, 0, c) else Arrivals(d, h - 1, c)
    }

    /** The array of process c after h hops of dimension d. */
    function Held(d: nat, h: nat, c: Proc): seq<Copy>
      requires Valid() && d < 3 && InGrid(ax, c)
      decreases d, h, 0
    {
      if h > 0 then Held(d, h - 1, c) + Arrivals(d, h - 1, c)
      else if d > 0 then Held(d - 1, Hops(d - 1), c)
      else own(c)
    }

    /** The array of process c, own and ghost atoms, when borders returns. */
    function Final(c: Proc): seq<Copy>
      requires Valid() && InGrid(ax, c)
    {
      Held(2, Hops(2), c)
    }
  }

  /** How often image t occurs in the array. */
  function Count(s: seq<Copy>, t: Tag): nat {
    if s == [] then 0 else
      Count(s[..|s| - 1], t) + if s[|s| - 1].tag == t then 1 else 0
  }

  lemma {:induction false} CountAppend(s: seq<Copy>, r: seq<Copy>, t: Tag)
    ensures Count(s + r, t) == Count(s, t) + Count(r, t)
  {
    if r == [] {
      assert s + r == s;
    } else {
      var n := |r| - 1;
      assert (s + r)[..|s + r| - 1] == s + r[..n];
      CountAppend(s, r[..n], t);
    }
  }

  /** Where image t of the atoms at `base` lies. */
  function Pos(ax: V3<Axis>, base: map<int, Vec>, t: Tag): Vec
    requires t.id in base
  {
    V3(base[t.id].x + Mul(t.k.x, ax.x.prd),
       base[t.id].y + Mul(t.k.y, ax.y.prd),
       base[t.id].z + Mul(t.k.z, ax.z.prd))
  }

  /** Every entry stores the position of the image it stands for. */
  ghost predicate Placed(ax: V3<Axis>, base: map<int, Vec>, s: seq<Copy>) {
    forall i :: 0 <= i < |s| ==> s[i].tag.id in base && s[i].x == Pos(ax, base, s[i].tag)
  }

  /** The image that becomes t when shifted by flag periods in dimension d. */
  function Unshift(t: Tag, d: nat, flag: int): Tag
    requires d < 3
  {
    t.(k := t.k.Set(d, t.k.At(d) - flag))
  }

  lemma PosShift(ax: V3<Axis>, base: map<int, Vec>, t: Tag, d: nat, flag: int)
    requires d < 3 && t.id in base
    ensures var p := Pos(ax, base, t);
            Pos(ax, base, t.(k := t.k.Set(d, t.k.At(d) + flag))) == p.Set(d, p.At(d) + Mul(flag, ax.At(d).prd))
  {
    MulAdd(t.k.At(d), flag, ax.At(d).prd);
    hide Mul;
  }

  lemma {:induction false} SentPlaced(ax: V3<Axis>, base: map<int, Vec>, s: seq<Copy>,
                                      d: nat, lo: real, hi: real, flag: int)
    requires d < 3 && Placed(ax, base, s)
    ensures Placed(ax, base, Sent(s, d, lo, hi, flag, ax.At(d).prd))
  {
    if s != [] {
      var n := |s| - 1;
      SentPlaced(ax, base, s[..n], d, lo, hi, flag);
      assert s[n].tag.id in base;
      var q := Shift(s[n], d, flag, ax.At(d).prd);
      PosShift(ax, base, s[n].tag, d, flag);
    }
  }

  /** An image is packed as often as its unshifted original is in the array, if
      that lies in the slab, and otherwise never. */
  lemma {:induction false} SentCount(ax: V3<Axis>, base: map<int, Vec>, s: seq<Copy>,
                                     d: nat, lo: real, hi: real, flag: int, t: Tag)
    requires d < 3 && Placed(ax, base, s)
    ensures var u := Unshift(t, d, flag);
            Count(Sent(s, d, lo, hi, flag, ax.At(d).prd), t) ==
            if t.id in base && lo <= Pos(ax, base, u).At(d) < hi then Count(s, u) else 0
  {
    if s != [] {
      var n := |s| - 1;
      var u := Unshift(t, d, flag);
      SentCount(ax, base, s[..n], d, lo, hi, flag, t);
      var q := Shift(s[n], d, flag, ax.At(d).prd);
      assert q.tag == t <==> s[n].tag == u;
      CountAppend(Sent(s[..n], d, lo, hi, flag, ax.At(d).prd),
                  if InSlab(s[n], d, lo, hi) then [q] else [], t);
      assert Count([q], t) == if q.tag == t then 1 else 0 by { assert [q][..0] == []; }
      assert s[n].tag.id in base;
    }
  }

  /** Bounds of what c holds while dimension d is being swapped: lo..hi in d
      itself, cutneigh more than the box in earlier dimensions, and just the box
      in later ones. */
  function Low(w: World, d: nat, c: Proc, lo: real): Vec
    requires w.Valid() && InGrid(w.ax, c) && d <= 3
  {
    V3(if d == 0 then lo else w.ax.x.Edge(c.x) - w.cut,
       if d == 1 then lo else w.ax.y.Edge(c.y) - if d > 1 then w.cut else 0.0,
       if d == 2 then lo else w.ax.z.Edge(c.z) - if d > 2 then w.cut else 0.0)
  }

  function High(w: World, d: nat, c: Proc, hi: real): Vec
    requires w.Valid() && InGrid(w.ax, c) && d <= 3
  {
    V3(if d == 0 then hi else w.ax.x.Edge(c.x + 1) + w.cut,
       if d == 1 then hi else w.ax.y.Edge(c.y + 1) + if d > 1 then w.cut else 0.0,
       if d == 2 then hi else w.ax.z.Edge(c.z + 1) + if d > 2 then w.cut else 0.0)
  }

  predicate Within(p: Vec, lo: Vec, hi: Vec) {
    lo.x <= p.x < hi.x && lo.y <= p.y < hi.y && lo.z <= p.z < hi.z
  }

  predicate InRegion(w: World, base: map<int, Vec>, d: nat, c: Proc, lo: real, hi: real, t: Tag)
    requires w.Valid() && InGrid(w.ax, c) && d <= 3
  {
    t.id in base && Within(Pos(w.ax, base, t), Low(w, d, c, lo), High(w, d, c, hi))
  }

  function Once(b: bool): nat { if b then 1 else 0 }

  /** The boxes of the atoms at `base` partition them: each process starts with
      exactly the atoms of its own box, once each, unshifted. */
  ghost predicate Owned(w: World, base: map<int, Vec>)
    requires w.Valid()
  {
    forall c: Proc {:trigger w.own(c)} | InGrid(w.ax, c) ::
      && Placed(w.ax, base, w.own(c))
      && (forall t: Tag :: Count(w.own(c), t) == Once(InRegion(w, base, 0, c, w.ax.x.Edge(c.x), w.ax.x.Edge(c.x + 1), t)))
  }

  lemma WithinShift(p: Vec, lo: Vec, hi: Vec, d: nat, s: real)
    requires d < 3
    ensures Within(p.Set(d, p.At(d) + s), lo.Set(d, lo.At(d) + s), hi.Set(d, hi.At(d) + s)) <==> Within(p, lo, hi)
  {}

  /** Sending across a boundary moves the whole region by one period with it. */
  lemma RegionShift(w: World, base: map<int, Vec>, d: nat, c: Proc, v: nat,
                    lo: real, hi: real, flag: int, t: Tag)
    requires w.Valid() && d < 3 && InGrid(w.ax, c) && v < w.ax.At(d).procs
    ensures var s := Mul(flag, w.ax.At(d).prd);
            InRegion(w, base, d, c.Set(d, v), lo + s, hi + s, t) <==> InRegion(w, base, d, c, lo, hi, Unshift(t, d, flag))
  {
    if t.id in base {
      var s := Mul(flag, w.ax.At(d).prd);
      var u := Unshift(t, d, flag);
      var c' := c.Set(d, v);
      PosShift(w.ax, base, u, d, flag);
      assert u.(k := u.k.Set(d, u.k.At(d) + flag)) == t;
      var l, h := Low(w, d, c, lo), High(w, d, c, hi);
      assert Low(w, d, c', lo + s) == l.Set(d, l.At(d) + s);
      assert High(w, d, c', hi + s) == h.Set(d, h.At(d) + s);
      WithinShift(Pos(w.ax, base, u), l, h, d, s);
    }
  }

  lemma PlacedAppend(ax: V3<Axis>, base: map<int, Vec>, s: seq<Copy>, r: seq<Copy>)
    requires Placed(ax, base, s) && Placed(ax, base, r)
    ensures Placed(ax, base, s + r)
  {}

  /** Every entry of every array, at every hop, is where its tag says. */
  lemma {:induction false} HeldPlaced(w: World, base: map<int, Vec>, d: nat, h: nat, c: Proc)
    requires w.Valid() && d < 3 && InGrid(w.ax, c) && Owned(w, base)
    ensures Placed(w.ax, base, w.Held(d, h, c))
    decreases d, h, 0
  {
    if h > 0 {
      HeldPlaced(w, base, d, h - 1, c);
      ArrivalsPlaced(w, base, d, h - 1, c);
      PlacedAppend(w.ax, base, w.Held(d, h - 1, c), w.Arrivals(d, h - 1, c));
    } else if d > 0 {
      HeldPlaced(w, base, d - 1, w.Hops(d - 1), c);
    } else {
      assert w.Held(0, 0, c) == w.own(c);
    }
  }

  lemma {:induction false} ScanPlaced(w: World, base: map<int, Vec>, d: nat, h: nat, c: Proc)
    requires w.Valid() && d < 3 && InGrid(w.ax, c) && Owned(w, base)
    ensures Placed(w.ax, base, w.Scan(d, h, c))
    decreases d, h, 1
  {
    if h == 0 { HeldPlaced(w, base, d, 0, c); } else { ArrivalsPlaced(w, base, d, h - 1, c); }
  }

  lemma {:induction false} ArrivalsPlaced(w: World, base: map<int, Vec>, d: nat, h: nat, c: Proc)
    requires w.Valid() && d < 3 && InGrid(w.ax, c) && Owned(w, base)
    ensures Placed(w.ax, base, w.SendLeft(d, h, RightOf(w.ax, d, c)))
    ensures Placed(w.ax, base, w.SendRight(d, h, LeftOf(w.ax, d, c)))
    ensures Placed(w.ax, base, w.Arrivals(d, h, c))
    decreases d, h, 3
  {
    var a, r, l := w.ax.At(d), RightOf(w.ax, d, c), LeftOf(w.ax, d, c);
    ScanPlaced(w, base, d, h, r);
    ScanPlaced(w, base, d, h, l);
    SentPlaced(w.ax, base, w.Scan(d, h, r), d, a.LeftSlabLo(r.At(d), h), a.LeftSlabHi(r.At(d), h, w.cut), a.LeftFlag(r.At(d)));
    SentPlaced(w.ax, base, w.Scan(d, h, l), d, a.RightSlabLo(l.At(d), h, w.cut), a.RightSlabHi(l.At(d), h), a.RightFlag(l.At(d)));
    PlacedAppend(w.ax, base, w.SendLeft(d, h, r), w.SendRight(d, h, l));
  }

  /** Packing the slab lo..hi from a scan range that covers alo..ahi, and maybe
      blo..bhi outside the slab, delivers the images of the slab once each. */
  lemma SlabDelivers(w: World, base: map<int, Vec>, d: nat, from: Proc, to: Proc, s: seq<Copy>,
                     lo: real, hi: real, flag: int, alo: real, ahi: real, blo: real, bhi: real, t: Tag)
    requires w.Valid() && d < 3 && InGrid(w.ax, from) && InGrid(w.ax, to)
    requires to == from.Set(d, to.At(d))
    requires Placed(w.ax, base, s)
    requires forall u :: Count(s, u) == Once(InRegion(w, base, d, from, alo, ahi, u)) + Once(InRegion(w, base, d, from, blo, bhi, u))
    requires hi <= lo || (alo <= lo && hi <= ahi && (bhi <= lo || hi <= blo || bhi <= blo))
    ensures var p := Mul(flag, w.ax.At(d).prd);
            Count(Sent(s, d, lo, hi, flag, w.ax.At(d).prd), t) == Once(InRegion(w, base, d, to, lo + p, hi + p, t))
  {
    var u := Unshift(t, d, flag);
    SentCount(w.ax, base, s, d, lo, hi, flag, t);
    RegionShift(w, base, d, from, to.At(d), lo, hi, flag, t);
    hide Mul;
  }

  /** Dimension d as seen from a box: the two neighbours, one period included. */
  lemma Neighbours(a: Axis, c: nat, n: int)
    requires a.Valid() && c < a.procs
    ensures a.Right(c) < a.procs && a.Left(c) < a.procs
    ensures a.Edge(a.Right(c) + n) + Mul(a.LeftFlag(a.Right(c)), a.prd) == a.Edge(c + 1 + n)
    ensures a.Edge(a.Left(c) + n) + Mul(a.RightFlag(a.Left(c)), a.prd) == a.Edge(c - 1 + n)
  {
    var r, l := a.Right(c), a.Left(c);
    EdgePeriod(a, r + n, a.LeftFlag(r));
    EdgePeriod(a, l + n, a.RightFlag(l));
    assert r + n + a.LeftFlag(r) * a.procs == c + 1 + n;
    assert l + n + a.RightFlag(l) * a.procs == c - 1 + n;
  }

  /** The scan range of hop h > 0 holds what arrived one hop earlier: images up
      to ScanHi on the right and from ScanLo on the left. At hop 0 it holds the
      box itself. */
  function ScanHi(w: World, d: nat, h: nat, c: Proc): real
    requires w.Valid() && d < 3
  {
    var a, i := w.ax.At(d), c.At(d);
    if h == 0 then a.Edge(i + 1) else Min(a.Edge(i + 1) + w.cut, a.Edge(i + 1 + h))
  }

  function ScanLo(w: World, d: nat, h: nat, c: Proc): real
    requires w.Valid() && d < 3
  {
    var a, i := w.ax.At(d), c.At(d);
    if h == 0 then a.Edge(i) else Max(a.Edge(i) - w.cut, a.Edge(i - h))
  }

  /** End of the left part of the scan range; at hop 0 that part is empty. */
  function ScanMid(w: World, d: nat, h: nat, c: Proc): real
    requires w.Valid() && d < 3
  {
    if h == 0 then ScanLo(w, d, h, c) else w.ax.At(d).Edge(c.At(d) - h + 1)
  }

  /** How far c's array reaches in dimension d after h hops. */
  function HeldLo(w: World, d: nat, h: nat, c: Proc): real
    requires w.Valid() && d < 3
  {
    Max(w.ax.At(d).Edge(c.At(d)) - w.cut, w.ax.At(d).Edge(c.At(d) - h))
  }

  function HeldHi(w: World, d: nat, h: nat, c: Proc): real
    requires w.Valid() && d < 3
  {
    Min(w.ax.At(d).Edge(c.At(d) + 1) + w.cut, w.ax.At(d).Edge(c.At(d) + 1 + h))
  }

  lemma HeldAtStart(w: World, d: nat, c: Proc)
    requires w.Valid() && d < 3
    ensures HeldLo(w, d, 0, c) == w.ax.At(d).Edge(c.At(d))
    ensures HeldHi(w, d, 0, c) == w.ax.At(d).Edge(c.At(d) + 1)
  {
    hide Axis.Edge;
  }

  /** What hop h fetches reaches up to FetchHi on the right, FetchLo on the left. */
  function FetchHi(w: World, d: nat, h: nat, c: Proc): real
    requires w.Valid() && d < 3
  {
    Min(w.ax.At(d).Edge(c.At(d) + 1) + w.cut, w.ax.At(d).Edge(c.At(d) + 2 + h))
  }

  function FetchLo(w: World, d: nat, h: nat, c: Proc): real
    requires w.Valid() && d < 3
  {
    Max(w.ax.At(d).Edge(c.At(d)) - w.cut, w.ax.At(d).Edge(c.At(d) - h - 1))
  }

  lemma NoRegion(w: World, base: map<int, Vec>, d: nat, c: Proc, r: real, t: Tag)
    requires w.Valid() && d < 3 && InGrid(w.ax, c)
    ensures Once(InRegion(w, base, d, c, r, r, t)) == 0
  {
    hide Axis.Edge;
    hide Pos;
  }

  lemma {:induction false} ScanCount(w: World, base: map<int, Vec>, d: nat, h: nat, c: Proc, t: Tag)
    requires w.Valid() && d < 3 && InGrid(w.ax, c) && Owned(w, base)
    ensures Count(w.Scan(d, h, c), t) ==
            Once(InRegion(w, base, d, c, w.ax.At(d).Edge(c.At(d) + h), ScanHi(w, d, h, c), t)) +
            Once(InRegion(w, base, d, c, ScanLo(w, d, h, c), ScanMid(w, d, h, c), t))
    decreases d, h, 1
  {
    if h == 0 {
      var a, i := w.ax.At(d), c.At(d);
      HeldAtStart(w, d, c);
      hide InRegion;
      hide Axis.Edge;
      HeldCount(w, base, d, 0, c, t);
      NoRegion(w, base, d, c, a.Edge(i), t);
    } else {
      assert w.Scan(d, h, c) == w.Arrivals(d, h - 1, c);
      assert ScanHi(w, d, h, c) == FetchHi(w, d, h - 1, c);
      assert ScanLo(w, d, h, c) == FetchLo(w, d, h - 1, c);
      hide *;
      ArrivalsCount(w, base, d, h - 1, c, t);
    }
  }

  /** The slab c's right neighbour sends from, in its own frame and in c's. */
  lemma FromRightSlab(w: World, d: nat, h: nat, c: Proc)
    requires w.Valid() && d < 3 && InGrid(w.ax, c)
    ensures var a, i, r := w.ax.At(d), c.At(d), RightOf(w.ax, d, c);
            var j := r.At(d);
            var p := Mul(a.LeftFlag(j), a.prd);
            var lo, hi := a.LeftSlabLo(j, h), a.LeftSlabHi(j, h, w.cut);
            && lo + p == a.Edge(i + 1 + h)
            && hi + p == FetchHi(w, d, h, c)
            && lo == a.Edge(j + h) && hi <= ScanHi(w, d, h, r)
            && (h > 0 ==> ScanMid(w, d, h, r) <= lo)
  {
    var a, i := w.ax.At(d), c.At(d);
    var j := RightOf(w.ax, d, c).At(d);
    Neighbours(a, i, 0);
    Neighbours(a, i, h);
    Neighbours(a, i, h + 1);
    EdgeMono(a, j, j + 1);
    if h > 0 { EdgeMono(a, j - h + 1, j + h); }
    hide Axis.Edge;
    hide Mul;
  }

  lemma FromLeftSlab(w: World, d: nat, h: nat, c: Proc)
    requires w.Valid() && d < 3 && InGrid(w.ax, c)
    ensures var a, i, l := w.ax.At(d), c.At(d), LeftOf(w.ax, d, c);
            var j := l.At(d);
            var p := Mul(a.RightFlag(j), a.prd);
            var lo, hi := a.RightSlabLo(j, h, w.cut), a.RightSlabHi(j, h);
            && lo + p == FetchLo(w, d, h, c)
            && hi + p == a.Edge(i - h)
            && (if h == 0 then a.Edge(j) <= lo && hi == ScanHi(w, d, 0, l)
                else ScanLo(w, d, h, l) <= lo && hi == ScanMid(w, d, h, l) && hi <= a.Edge(j + h))
  {
    var a, i, n: int := w.ax.At(d), c.At(d), h;
    var j := LeftOf(w.ax, d, c).At(d);
    Neighbours(a, i, 1);
    Neighbours(a, i, -n);
    Neighbours(a, i, 1 - n);
    EdgeMono(a, j, j + 1);
    if h > 0 { EdgeMono(a, j - h + 1, j + h); }
    hide Axis.Edge;
    hide Mul;
  }

  /** Ghosts that c receives from its right in hop h: box c + 1 + h, as far as
      the cutoff reaches. */
  lemma {:induction false} FromRightCount(w: World, base: map<int, Vec>, d: nat, h: nat, c: Proc, t: Tag)
    requires w.Valid() && d < 3 && InGrid(w.ax, c) && Owned(w, base)
    ensures var a, i := w.ax.At(d), c.At(d);
            Count(w.SendLeft(d, h, RightOf(w.ax, d, c)), t) ==
            Once(InRegion(w, base, d, c, a.Edge(i + 1 + h), FetchHi(w, d, h, c), t))
    decreases d, h, 3
  {
    var a, r := w.ax.At(d), RightOf(w.ax, d, c);
    var j, s := r.At(d), w.Scan(d, h, r);
    var lo, hi, f := a.LeftSlabLo(j, h), a.LeftSlabHi(j, h, w.cut), a.LeftFlag(j);
    assert w.SendLeft(d, h, r) == Sent(s, d, lo, hi, f, a.prd);
    var alo, ahi, blo, bhi := a.Edge(j + h), ScanHi(w, d, h, r), ScanLo(w, d, h, r), ScanMid(w, d, h, r);
    assert h == 0 ==> bhi <= blo;
    FromRightSlab(w, d, h, c);
    ScanPlaced(w, base, d, h, r);
    forall u ensures Count(s, u) == Once(InRegion(w, base, d, r, alo, ahi, u)) + Once(InRegion(w, base, d, r, blo, bhi, u)) {
      ScanCount(w, base, d, h, r, u);
    }
    assert InGrid(w.ax, r) && c == r.Set(d, c.At(d));
    hide *;
    SlabDelivers(w, base, d, r, c, s, lo, hi, f, alo, ahi, blo, bhi, t);
  }

  /** Ghosts that c receives from its left in hop h: box c - 1 - h, as far as the
      cutoff reaches. */
  lemma {:induction false} FromLeftCount(w: World, base: map<int, Vec>, d: nat, h: nat, c: Proc, t: Tag)
    requires w.Valid() && d < 3 && InGrid(w.ax, c) && Owned(w, base)
    ensures var a, i := w.ax.At(d), c.At(d);
            Count(w.SendRight(d, h, LeftOf(w.ax, d, c)), t) ==
            Once(InRegion(w, base, d, c, FetchLo(w, d, h, c), a.Edge(i - h), t))
    decreases d, h, 3
  {
    var a, l := w.ax.At(d), LeftOf(w.ax, d, c);
    var j, s := l.At(d), w.Scan(d, h, l);
    var lo, hi, f := a.RightSlabLo(j, h, w.cut), a.RightSlabHi(j, h), a.RightFlag(j);
    assert w.SendRight(d, h, l) == Sent(s, d, lo, hi, f, a.prd);
    var alo, ahi, blo, bhi := a.Edge(j + h), ScanHi(w, d, h, l), ScanLo(w, d, h, l), ScanMid(w, d, h, l);
    assert h == 0 ==> bhi <= blo;
    FromLeftSlab(w, d, h, c);
    ScanPlaced(w, base, d, h, l);
    forall u ensures Count(s, u) == Once(InRegion(w, base, d, l, alo, ahi, u)) + Once(InRegion(w, base, d, l, blo, bhi, u)) {
      ScanCount(w, base, d, h, l, u);
    }
    assert InGrid(w.ax, l) && c == l.Set(d, c.At(d));
    hide *;
    if h == 0 {
      SlabDelivers(w, base, d, l, c, s, lo, hi, f, alo, ahi, blo, bhi, t);
    } else {
      SlabDelivers(w, base, d, l, c, s, lo, hi, f, blo, bhi, alo, ahi, t);
    }
  }

  lemma {:induction false} ArrivalsCount(w: World, base: map<int, Vec>, d: nat, h: nat, c: Proc, t: Tag)
    requires w.Valid() && d < 3 && InGrid(w.ax, c) && Owned(w, base)
    ensures var a, i := w.ax.At(d), c.At(d);
            Count(w.Arrivals(d, h, c), t) ==
            Once(InRegion(w, base, d, c, a.Edge(i + 1 + h), FetchHi(w, d, h, c), t)) +
            Once(InRegion(w, base, d, c, FetchLo(w, d, h, c), a.Edge(i - h), t))
    decreases d, h, 4
  {
    var r, l := w.SendLeft(d, h, RightOf(w.ax, d, c)), w.SendRight(d, h, LeftOf(w.ax, d, c));
    assert w.Arrivals(d, h, c) == r + l;
    hide *;
    FromRightCount(w, base, d, h, c, t);
    FromLeftCount(w, base, d, h, c, t);
    CountAppend(r, l, t);
  }

  /** Growing a region at both ends by what arrives there. */
  lemma RegionGrow(w: World, base: map<int, Vec>, d: nat, c: Proc,
                   lo': real, lo: real, hi: real, hi': real, rlo: real, lhi: real, t: Tag)
    requires w.Valid() && d < 3 && InGrid(w.ax, c)
    requires lo' <= lo <= hi <= hi'
    requires rlo == hi || (hi' == hi <= rlo)
    requires lhi == lo || (lo' == lo >= lhi)
    ensures Once(InRegion(w, base, d, c, lo', hi', t)) ==
            Once(InRegion(w, base, d, c, lo, hi, t)) + Once(InRegion(w, base, d, c, rlo, hi', t)) +
            Once(InRegion(w, base, d, c, lo', lhi, t))
  {
    hide Axis.Edge;
    hide Mul;
  }

  lemma HeldStep(w: World, d: nat, h: nat, c: Proc)
    requires w.Valid() && d < 3 && InGrid(w.ax, c) && h > 0
    ensures var a, i := w.ax.At(d), c.At(d);
            var lo', lo, hi, hi' := HeldLo(w, d, h, c), HeldLo(w, d, h - 1, c), HeldHi(w, d, h - 1, c), HeldHi(w, d, h, c);
            && lo' <= lo <= hi <= hi'
            && (a.Edge(i + h) == hi || (hi' == hi <= a.Edge(i + h)))
            && (a.Edge(i - h + 1) == lo || (lo' == lo >= a.Edge(i - h + 1)))
  {
    hide Axis.Edge;
    var a, i := w.ax.At(d), c.At(d);
    EdgeMono(a, i - h, i - h + 1);
    EdgeMono(a, i - h + 1, i + h);
    EdgeMono(a, i + h, i + h + 1);
    EdgeMono(a, i, i + 1);
    EdgeMono(a, i, i + h);
    EdgeMono(a, i - h + 1, i + 1);
  }

  /** Enough hops are made: the whole halo of dimension d has been fetched. */
  lemma HopsCover(w: World, d: nat, c: Proc)
    requires w.Valid() && d < 3
    ensures HeldLo(w, d, w.Hops(d), c) == w.ax.At(d).Edge(c.At(d)) - w.cut
    ensures HeldHi(w, d, w.Hops(d), c) == w.ax.At(d).Edge(c.At(d) + 1) + w.cut
  {
    var a, i, n: int := w.ax.At(d), c.At(d), w.Hops(d);
    NeedCovers(a, w.cut);
    EdgeAdd(a, i - n, n);
    EdgeAdd(a, i + 1, n);
  }

  /** After h hops c holds every image within min(h boxes, cutneigh) of its box
      in dimension d, once each, and nothing else. */
  lemma {:induction false} HeldCount(w: World, base: map<int, Vec>, d: nat, h: nat, c: Proc, t: Tag)
    requires w.Valid() && d < 3 && InGrid(w.ax, c) && Owned(w, base)
    ensures Count(w.Held(d, h, c), t) == Once(InRegion(w, base, d, c, HeldLo(w, d, h, c), HeldHi(w, d, h, c), t))
    decreases d, h, 0
  {
    if h > 0 {
      HeldGrow(w, base, d, h, c, t);
    } else if d > 0 {
      hide Owned;
      hide Axis.Edge;
      HeldCount(w, base, d - 1, w.Hops(d - 1), c, t);
      HopsCover(w, d - 1, c);
      HeldAtStart(w, d, c);
    } else {
      hide Axis.Edge;
      hide InRegion;
      HeldAtStart(w, 0, c);
    }
  }

  lemma {:induction false} HeldGrow(w: World, base: map<int, Vec>, d: nat, h: nat, c: Proc, t: Tag)
    requires w.Valid() && d < 3 && InGrid(w.ax, c) && Owned(w, base) && h > 0
    ensures Count(w.Held(d, h, c), t) == Once(InRegion(w, base, d, c, HeldLo(w, d, h, c), HeldHi(w, d, h, c), t))
    decreases d, h - 1, 5
  {
    hide Owned;
    var a, i := w.ax.At(d), c.At(d);
    assert w.Held(d, h, c) == w.Held(d, h - 1, c) + w.Arrivals(d, h - 1, c);
    assert HeldHi(w, d, h, c) == FetchHi(w, d, h - 1, c);
    assert HeldLo(w, d, h, c) == FetchLo(w, d, h - 1, c);
    HeldStep(w, d, h, c);
    hide *;
    HeldCount(w, base, d, h - 1, c, t);
    ArrivalsCount(w, base, d, h - 1, c, t);
    CountAppend(w.Held(d, h - 1, c), w.Arrivals(d, h - 1, c), t);
    RegionGrow(w, base, d, c, HeldLo(w, d, h, c), HeldLo(w, d, h - 1, c), HeldHi(w, d, h - 1, c), HeldHi(w, d, h, c),
               a.Edge(i + h), a.Edge(i - h + 1), t);
  }

  /** Ghost completeness: when borders returns, each process holds exactly the
      periodic images that lie within cutneigh of its box in every dimension,
      each once, for any number of processes and any cutoff. */
  lemma BordersExact(w: World, base: map<int, Vec>, c: Proc, t: Tag)
    requires w.Valid() && InGrid(w.ax, c) && Owned(w, base)
    ensures Count(w.Final(c), t) == Once(InHalo(w, base, c, t))
  {
    HeldCount(w, base, 2, w.Hops(2), c, t);
    HopsCover(w, 2, c);
    hide Axis.Edge;
    hide Mul;
  }

  /** The box of c, extended by cutneigh on every side. */
  predicate InHalo(w: World, base: map<int, Vec>, c: Proc, t: Tag)
    requires w.Valid() && InGrid(w.ax, c)
  {
    t.id in base &&
    var p := Pos(w.ax, base, t);
    && w.ax.x.Edge(c.x) - w.cut <= p.x < w.ax.x.Edge(c.x + 1) + w.cut
    && w.ax.y.Edge(c.y) - w.cut <= p.y < w.ax.y.Edge(c.y + 1) + w.cut
    && w.ax.z.Edge(c.z) - w.cut <= p.z < w.ax.z.Edge(c.z + 1) + w.cut
  }

  /** The coordinates the program keeps of an array. */
  function Positions(s: seq<Copy>): (x: seq<Vec>)
    ensures |x| == |s| && forall i :: 0 <= i < |s| ==> x[i] == s[i].x
  {
    seq(|s|, i requires 0 <= i < |s| => s[i].x)
  }
}
