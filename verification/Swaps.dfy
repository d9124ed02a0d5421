/** The swaps borders records, and what communicate and reverse_communicate make
    of them later. */
module Swaps {
  import opened Vec3
  import opened Grid
  import opened Sums
  import opened Borders

  /** One swap of all processes: each packs the entries in its list, and stores
      what it receives from index first on. */
  datatype Swap = Swap(d: nat, left: bool, list: Proc -> seq<nat>, first: Proc -> nat) {

    /** recvproc: where c receives from. */
    function From(ax: V3<Axis>, c: Proc): (p: Proc)
      requires d < 3 && InGrid(ax, c)
      ensures InGrid(ax, p)
    {
      if left then RightOf(ax, d, c) else LeftOf(ax, d, c)
    }

    /** The sender's pbc flag. */
    function Flag(ax: V3<Axis>, p: Proc): int
      requires d < 3 && InGrid(ax, p)
    {
      if left then ax.At(d).LeftFlag(p.At(d)) else ax.At(d).RightFlag(p.At(d))
    }
  }

  function Shifted(t: Tag, d: nat, flag: int): Tag
    requires d < 3
  {
    t.(k := t.k.Set(d, t.k.At(d) + flag))
  }

  /** Every index of the list is below m. */
  predicate Below(list: seq<nat>, m: nat) { forall n :: 0 <= n < |list| ==> list[n] < m }

  /** The swaps in order, the number of own atoms of each process, and what each
      entry of its array stands for. */
  datatype Plan = Plan(ax: V3<Axis>, swaps: seq<Swap>, nlocal: Proc -> nat, tags: Proc -> seq<Tag>) {

    ghost predicate Valid() {
      ax.x.Valid() && ax.y.Valid() && ax.z.Valid() && forall s :: 0 <= s < |swaps| ==> swaps[s].d < 3
    }

    function From(s: nat, c: Proc): (p: Proc)
      requires Valid() && s < |swaps| && InGrid(ax, c)
      ensures InGrid(ax, p)
    {
      swaps[s].From(ax, c)
    }

    /** sendlist[s] of c. */
    function List(s: nat, c: Proc): seq<nat>
      requires s < |swaps|
    {
      swaps[s].list(c)
    }

    function Flag(s: nat, c: Proc): int
      requires Valid() && s < |swaps| && InGrid(ax, c)
    {
      swaps[s].Flag(ax, c)
    }

    /** Entries of c before swap s. */
    function Size(s: nat, c: Proc): nat
      requires Valid() && s <= |swaps| && InGrid(ax, c)
    {
      if s == 0 then nlocal(c) else Size(s - 1, c) + |List(s - 1, From(s - 1, c))|
    }

    function Tags(c: Proc): seq<Tag> { tags(c) }

    /** Swap s appends to the array of c copies of entries the sender has. */
    ghost predicate Good(s: nat, c: Proc)
      requires Valid() && s < |swaps| && InGrid(ax, c)
    {
      var p := From(s, c);
      && swaps[s].first(c) == Size(s, c)
      && Size(s, c) + |List(s, p)| <= |Tags(c)|
      && Size(s, p) <= |Tags(p)| && Below(List(s, p), Size(s, p))
      && forall n: nat | n < |List(s, p)| :: Copied(s, c, p, n)
    }

    ghost predicate Copied(s: nat, c: Proc, p: Proc, n: nat)
      requires Valid() && s < |swaps| && InGrid(ax, c) && InGrid(ax, p) && n < |List(s, p)|
    {
      var i := List(s, p)[n];
      && i < |Tags(p)| && Size(s, c) + n < |Tags(c)|
      && Tags(c)[Size(s, c) + n] == Shifted(Tags(p)[i], swaps[s].d, Flag(s, p))
    }

    /** What borders leaves behind. */
    ghost predicate Recorded() {
      && Valid()
      && (forall s: nat, c | s < |swaps| && InGrid(ax, c) :: Good(s, c))
      && (forall c | InGrid(ax, c) :: |Tags(c)| == Size(|swaps|, c))
    }

    lemma {:induction false} SizeGrows(s: nat, s': nat, c: Proc)
      requires Valid() && s <= s' <= |swaps| && InGrid(ax, c)
      ensures Size(s, c) <= Size(s', c)
    {
      hide From;
      hide List;
      if s < s' { SizeGrows(s, s' - 1, c); }
    }
  }

  /** Atom::pack_comm or its kernel: the listed positions, shifted. */
  function Packed(x: seq<Vec>, list: seq<nat>, d: nat, shift: real): (buf: seq<Vec>)
    requires d < 3 && Below(list, |x|)
    ensures |buf| == |list|
    ensures forall n :: 0 <= n < |list| ==> buf[n] == x[list[n]].Set(d, x[list[n]].At(d) + shift)
  {
    seq(|list|, n requires 0 <= n < |list| => x[list[n]].Set(d, x[list[n]].At(d) + shift))
  }

  /** Atom::unpack_comm: buf replaces what is stored from index first on. */
  function Overwritten(x: seq<Vec>, first: nat, buf: seq<Vec>): (y: seq<Vec>)
    requires first + |buf| <= |x|
    ensures |y| == |x|
    ensures forall j :: 0 <= j < |x| ==> y[j] == if first <= j < first + |buf| then buf[j - first] else x[j]
  {
    x[..first] + buf + x[first + |buf|..]
  }

  lemma GoodAt(p: Plan, s: nat, c: Proc)
    requires p.Recorded() && s < |p.swaps| && InGrid(p.ax, c)
    ensures p.Valid() && p.swaps[s].d < 3 && p.Good(s, c)
    ensures var q := p.From(s, c);
            && p.swaps[s].first(c) == p.Size(s, c)
            && p.Size(s, c) + |p.List(s, q)| <= |p.Tags(c)|
            && p.Size(s, q) <= |p.Tags(q)|
            && Below(p.List(s, q), |p.Tags(q)|)
  {
    hide Plan.From;
    hide Plan.List;
    hide Plan.Size;
    hide Plan.Tags;
    hide Plan.Flag;
  }

  /** The positions of c after the first s swaps of communicate. */
  ghost function Communicated(p: Plan, x: Proc -> seq<Vec>, s: nat, c: Proc): (y: seq<Vec>)
    requires p.Recorded() && s <= |p.swaps| && InGrid(p.ax, c)
    requires forall e | InGrid(p.ax, e) :: |x(e)| == |p.Tags(e)|
    ensures |y| == |p.Tags(c)|
  {
    hide *;
    if s == 0 then x(c) else
      GoodAt(p, s - 1, c);
      var q, w := p.From(s - 1, c), p.swaps[s - 1];
      var buf := Packed(Communicated(p, x, s - 1, q), p.List(s - 1, q), w.d, Mul(p.Flag(s - 1, q), p.ax.At(w.d).prd));
      Overwritten(Communicated(p, x, s - 1, c), w.first(c), buf)
  }

  /** v is where the image that entry j of c stands for is when the atoms are at base. */
  ghost predicate Tracks(p: Plan, base: map<int, Vec>, c: Proc, j: nat, v: Vec) {
    j < |p.Tags(c)| && p.Tags(c)[j].id in base && v == Pos(p.ax, base, p.Tags(c)[j])
  }

  ghost predicate Current(p: Plan, base: map<int, Vec>, c: Proc, y: seq<Vec>, n: nat) {
    n <= |y| && forall j: nat | j < n :: Tracks(p, base, c, j, y[j])
  }

  /** The entries swap s delivers are current if the sender's are. */
  lemma PackedCurrent(p: Plan, base: map<int, Vec>, s: nat, c: Proc, z: seq<Vec>, buf: seq<Vec>)
    requires p.Valid() && s < |p.swaps| && InGrid(p.ax, c) && p.Good(s, c)
    requires Current(p, base, p.From(s, c), z, p.Size(s, p.From(s, c))) && Below(p.List(s, p.From(s, c)), |z|)
    requires var q, w := p.From(s, c), p.swaps[s];
             buf == Packed(z, p.List(s, q), w.d, Mul(p.Flag(s, q), p.ax.At(w.d).prd))
    ensures forall n: nat | n < |buf| :: Tracks(p, base, c, p.Size(s, c) + n, buf[n])
  {
    hide Plan.From;
    hide Plan.List;
    hide Plan.Size;
    hide Plan.Tags;
    hide Plan.Flag;
    hide Pos;
    hide Mul;
    hide Axis.Valid;
    var q, w := p.From(s, c), p.swaps[s];
    forall n: nat | n < |buf| ensures Tracks(p, base, c, p.Size(s, c) + n, buf[n]) {
      assert p.Copied(s, c, q, n);
      var i := p.List(s, q)[n];
      assert Tracks(p, base, q, i, z[i]);
      PosShift(p.ax, base, p.Tags(q)[i], w.d, p.Flag(s, q));
    }
  }

  lemma OverwrittenCurrent(p: Plan, base: map<int, Vec>, c: Proc, y: seq<Vec>, n: nat, buf: seq<Vec>)
    requires Current(p, base, c, y, n) && n + |buf| <= |y|
    requires forall k: nat | k < |buf| :: Tracks(p, base, c, n + k, buf[k])
    ensures Current(p, base, c, Overwritten(y, n, buf), n + |buf|)
  {
    hide Tracks;
    var z := Overwritten(y, n, buf);
    forall j: nat | j < n + |buf| ensures Tracks(p, base, c, j, z[j]) {
      if j >= n { assert z[j] == buf[j - n]; }
    }
  }

  /** One swap of communicate, spelled out. */
  lemma CommunicatedStep(p: Plan, x: Proc -> seq<Vec>, s: nat, c: Proc) returns (y: seq<Vec>, z: seq<Vec>, buf: seq<Vec>)
    requires p.Recorded() && s < |p.swaps| && InGrid(p.ax, c)
    requires forall e | InGrid(p.ax, e) :: |x(e)| == |p.Tags(e)|
    ensures p.Valid() && p.swaps[s].d < 3 && p.Good(s, c)
    ensures y == Communicated(p, x, s, c) && z == Communicated(p, x, s, p.From(s, c))
    ensures var q, w := p.From(s, c), p.swaps[s];
            Below(p.List(s, q), |z|) && buf == Packed(z, p.List(s, q), w.d, Mul(p.Flag(s, q), p.ax.At(w.d).prd))
    ensures p.Size(s + 1, c) == p.Size(s, c) + |buf| <= |y| == |p.Tags(c)|
    ensures Communicated(p, x, s + 1, c) == Overwritten(y, p.Size(s, c), buf)
  {
    hide Plan.Recorded;
    hide Plan.Good;
    hide Plan.From;
    hide Plan.List;
    hide Plan.Tags;
    hide Plan.Flag;
    GoodAt(p, s, c);
    var q, w := p.From(s, c), p.swaps[s];
    y, z := Communicated(p, x, s, c), Communicated(p, x, s, q);
    buf := Packed(z, p.List(s, q), w.d, Mul(p.Flag(s, q), p.ax.At(w.d).prd));
  }

  /** Replay: whatever the ghosts were, after s swaps every entry up to there is at
      its root's new position plus the shifts it has collected. */
  lemma {:induction false} Replayed(p: Plan, base: map<int, Vec>, x: Proc -> seq<Vec>, s: nat, c: Proc)
    requires p.Recorded() && s <= |p.swaps| && InGrid(p.ax, c)
    requires forall e | InGrid(p.ax, e) :: |x(e)| == |p.Tags(e)| && Current(p, base, e, x(e), p.nlocal(e))
    ensures Current(p, base, c, Communicated(p, x, s, c), p.Size(s, c))
  {
    hide *;
    var q := CommunicatedStart(p, x, s, c);
    if s > 0 {
      var y, z, buf := CommunicatedStep(p, x, s - 1, c);
      Replayed(p, base, x, s - 1, c);
      Replayed(p, base, x, s - 1, q);
      PackedCurrent(p, base, s - 1, c, z, buf);
      OverwrittenCurrent(p, base, c, y, p.Size(s - 1, c), buf);
    }
  }

  lemma CommunicatedStart(p: Plan, x: Proc -> seq<Vec>, s: nat, c: Proc) returns (q: Proc)
    requires p.Recorded() && s <= |p.swaps| && InGrid(p.ax, c)
    requires forall e | InGrid(p.ax, e) :: |x(e)| == |p.Tags(e)|
    ensures p.Valid() && InGrid(p.ax, q)
    ensures s == 0 ==> Communicated(p, x, s, c) == x(c) && p.Size(s, c) == p.nlocal(c)
    ensures s > 0 ==> q == p.From(s - 1, c)
  {
    hide Plan.From;
    hide Plan.Good;
    q := if s > 0 then p.From(s - 1, c) else c;
  }
}
