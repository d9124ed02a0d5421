/** reverse_communicate: the recorded swaps, last to first, carry every ghost's
    force back to the atom it is a copy of. */
module Reverse {
  import opened Vec3
  import opened Grid
  import opened Sums
  import opened Borders
  import opened Swaps

  function Plus(a: Vec, b: Vec): Vec { V3(a.x + b.x, a.y + b.y, a.z + b.z) }

  /** Atom::unpack_reverse: the first n values of buf are added to the listed
      entries, one after the other. */
  function Added(f: seq<Vec>, list: seq<nat>, buf: seq<Vec>, n: nat): (g: seq<Vec>)
    requires n <= |list| == |buf| && Below(list, |f|)
    ensures |g| == |f|
  {
    if n == 0 then f else
      var g := Added(f, list, buf, n - 1);
      g[list[n - 1] := Plus(g[list[n - 1]], buf[n - 1])]
  }

  /** sendproc: where c sends to in swap s. */
  function To(p: Plan, s: nat, c: Proc): (e: Proc)
    requires p.Valid() && s < |p.swaps| && InGrid(p.ax, c)
    ensures InGrid(p.ax, e) && p.From(s, e) == c
  {
    var w := p.swaps[s];
    if w.left then LeftOf(p.ax, w.d, c) else RightOf(p.ax, w.d, c)
  }

  /** The forces of c once the swaps from the last down to s have been undone. */
  ghost function Reversed(p: Plan, f: Proc -> seq<Vec>, s: nat, c: Proc): (g: seq<Vec>)
    requires p.Recorded() && s <= |p.swaps| && InGrid(p.ax, c)
    requires forall e | InGrid(p.ax, e) :: |f(e)| == |p.Tags(e)|
    ensures |g| == |p.Tags(c)|
    decreases |p.swaps| - s
  {
    hide *;
    if s == |p.swaps| then f(c) else
      RecordedValid(p);
      var e := To(p, s, c);
      GoodAt(p, s, e);
      var g, first := Reversed(p, f, s + 1, e), p.swaps[s].first(e);
      BelowLength(p, s, c);
      Added(Reversed(p, f, s + 1, c), p.List(s, c), g[first..first + |p.List(s, c)|], |p.List(s, c)|)
  }

  lemma RecordedValid(p: Plan)
    requires p.Recorded()
    ensures p.Valid() && forall s :: 0 <= s < |p.swaps| ==> p.swaps[s].d < 3
  {}

  lemma BelowLength(p: Plan, s: nat, c: Proc)
    requires p.Recorded() && s < |p.swaps| && InGrid(p.ax, c)
    ensures Below(p.List(s, c), |p.Tags(c)|)
  {
    hide *;
    RecordedValid(p);
    GoodAt(p, s, To(p, s, c));
  }

  /** What the selected atoms among the first n entries amount to in dimension d. */
  function Amount(f: seq<Vec>, tags: seq<Tag>, sel: int -> bool, d: nat, n: nat): real
    requires d < 3 && n <= |f| && n <= |tags|
  {
    if n == 0 then 0.0 else
      Amount(f, tags, sel, d, n - 1) + if sel(tags[n - 1].id) then f[n - 1].At(d) else 0.0
  }

  /** What the first n values of a buffer amount to, for the entries they belong to. */
  function Carried(buf: seq<Vec>, list: seq<nat>, tags: seq<Tag>, sel: int -> bool, d: nat, n: nat): real
    requires d < 3 && n <= |buf| == |list| && Below(list, |tags|)
  {
    if n == 0 then 0.0 else
      Carried(buf, list, tags, sel, d, n - 1) + if sel(tags[list[n - 1]].id) then buf[n - 1].At(d) else 0.0
  }

  lemma {:induction false} AmountUpdate(f: seq<Vec>, tags: seq<Tag>, sel: int -> bool, d: nat, n: nat, i: nat, v: Vec)
    requires d < 3 && n <= |f| && n <= |tags| && i < |f|
    ensures Amount(f[i := v], tags, sel, d, n) ==
            Amount(f, tags, sel, d, n) + if i < n && sel(tags[i].id) then v.At(d) - f[i].At(d) else 0.0
  {
    if n > 0 { AmountUpdate(f, tags, sel, d, n - 1, i, v); }
  }

  lemma {:induction false} AmountAdded(f: seq<Vec>, tags: seq<Tag>, sel: int -> bool, d: nat, m: nat, list: seq<nat>, buf: seq<Vec>, n: nat)
    requires d < 3 && m <= |f| && m <= |tags| && n <= |list| == |buf| && Below(list, m)
    ensures Amount(Added(f, list, buf, n), tags, sel, d, m) == Amount(f, tags, sel, d, m) + Carried(buf, list, tags, sel, d, n)
  {
    if n > 0 {
      var g, i := Added(f, list, buf, n - 1), list[n - 1];
      AmountAdded(f, tags, sel, d, m, list, buf, n - 1);
      AmountUpdate(g, tags, sel, d, m, i, Plus(g[i], buf[n - 1]));
    }
  }

  /** A stretch of entries amounts to what it amounts to as a buffer for the
      entries it copies. */
  lemma {:induction false} AmountTail(f: seq<Vec>, tags: seq<Tag>, sel: int -> bool, d: nat, m: nat, list: seq<nat>, from: seq<Tag>, n: nat)
    requires d < 3 && m + |list| <= |f| && m + |list| <= |tags| && n <= |list| && Below(list, |from|)
    requires forall k: nat | k < |list| :: tags[m + k].id == from[list[k]].id
    ensures Amount(f, tags, sel, d, m + n) == Amount(f, tags, sel, d, m) + Carried(f[m..m + |list|], list, from, sel, d, n)
  {
    if n > 0 {
      AmountTail(f, tags, sel, d, m, list, from, n - 1);
      var k := n - 1;
      assert tags[m + k].id == from[list[k]].id;
    }
  }

  /** What the selected atoms hold over all processes, counting the entries that
      exist before swap s. */
  ghost function Held(p: Plan, f: Proc -> seq<Vec>, sel: int -> bool, d: nat, s: nat, t: nat): Proc -> real
    requires p.Recorded() && s <= |p.swaps| && t <= |p.swaps| && d < 3
    requires forall e | InGrid(p.ax, e) :: |f(e)| == |p.Tags(e)|
  {
    hide *;
    (c: Proc) => if InGrid(p.ax, c) then RecordedValid(p); SizeFits(p, t, c); Amount(Reversed(p, f, s, c), p.Tags(c), sel, d, p.Size(t, c)) else 0.0
  }

  lemma SizeFits(p: Plan, s: nat, c: Proc)
    requires p.Recorded() && s <= |p.swaps| && InGrid(p.ax, c)
    ensures p.Valid() && p.Size(s, c) <= |p.Tags(c)|
  {
    hide Plan.Good;
    hide Plan.Size;
    p.SizeGrows(s, |p.swaps|, c);
  }

  /** What c hands back in swap s. */
  ghost function Handed(p: Plan, f: Proc -> seq<Vec>, sel: int -> bool, d: nat, s: nat): Proc -> real
    requires p.Recorded() && s < |p.swaps| && d < 3
    requires forall e | InGrid(p.ax, e) :: |f(e)| == |p.Tags(e)|
  {
    hide *;
    (c: Proc) => Held(p, f, sel, d, s + 1, s + 1)(c) - Held(p, f, sel, d, s + 1, s)(c)
  }

  /** What c gets back in swap s. */
  ghost function Returned(p: Plan, f: Proc -> seq<Vec>, sel: int -> bool, d: nat, s: nat): Proc -> real
    requires p.Recorded() && s < |p.swaps| && d < 3
    requires forall e | InGrid(p.ax, e) :: |f(e)| == |p.Tags(e)|
  {
    hide *;
    (c: Proc) => if InGrid(p.ax, c) then RecordedValid(p); Handed(p, f, sel, d, s)(To(p, s, c)) else 0.0
  }

  lemma HeldIs(p: Plan, f: Proc -> seq<Vec>, sel: int -> bool, d: nat, s: nat, t: nat, c: Proc)
    requires p.Recorded() && s <= |p.swaps| && t <= |p.swaps| && d < 3 && InGrid(p.ax, c)
    requires forall e | InGrid(p.ax, e) :: |f(e)| == |p.Tags(e)|
    ensures p.Valid() && p.Size(t, c) <= |p.Tags(c)|
    ensures Held(p, f, sel, d, s, t)(c) == Amount(Reversed(p, f, s, c), p.Tags(c), sel, d, p.Size(t, c))
  {
    hide Plan.Recorded;
    hide Plan.Valid;
    hide Plan.Size;
    hide Plan.Tags;
    hide Reversed;
    hide Amount;
    SizeFits(p, t, c);
  }

  /** Swap s undone at c: what e received from c comes back. */
  lemma ReversedStep(p: Plan, f: Proc -> seq<Vec>, s: nat, c: Proc) returns (e: Proc, g: seq<Vec>, h: seq<Vec>, buf: seq<Vec>)
    requires p.Recorded() && s < |p.swaps| && InGrid(p.ax, c)
    requires forall e | InGrid(p.ax, e) :: |f(e)| == |p.Tags(e)|
    ensures p.Valid() && e == To(p, s, c) && InGrid(p.ax, e) && p.From(s, e) == c && p.Good(s, e)
    ensures g == Reversed(p, f, s + 1, c) && h == Reversed(p, f, s + 1, e)
    ensures |g| == |p.Tags(c)| && |h| == |p.Tags(e)| && Below(p.List(s, c), |g|)
    ensures p.Size(s + 1, e) == p.Size(s, e) + |p.List(s, c)| <= |h|
    ensures buf == h[p.Size(s, e)..p.Size(s, e) + |p.List(s, c)|]
    ensures Reversed(p, f, s, c) == Added(g, p.List(s, c), buf, |buf|)
  {
    hide Plan.Recorded;
    hide Plan.Good;
    hide Plan.Valid;
    hide Plan.From;
    hide Plan.List;
    hide Plan.Tags;
    hide Below;
    hide Added;
    hide To;
    RecordedValid(p);
    e := To(p, s, c);
    GoodAt(p, s, e);
    BelowLength(p, s, c);
    g, h := Reversed(p, f, s + 1, c), Reversed(p, f, s + 1, e);
    buf := h[p.Size(s, e)..p.Size(s, e) + |p.List(s, c)|];
  }

  lemma CopiedIds(p: Plan, s: nat, e: Proc, c: Proc)
    requires p.Valid() && s < |p.swaps| && InGrid(p.ax, e) && p.From(s, e) == c && InGrid(p.ax, c) && p.Good(s, e)
    ensures p.Size(s, e) + |p.List(s, c)| <= |p.Tags(e)| && p.Size(s, c) <= |p.Tags(c)|
    ensures Below(p.List(s, c), p.Size(s, c)) && Below(p.List(s, c), |p.Tags(c)|)
    ensures forall k: nat | k < |p.List(s, c)| :: p.Tags(e)[p.Size(s, e) + k].id == p.Tags(c)[p.List(s, c)[k]].id
  {
    hide Plan.From;
    hide Plan.List;
    hide Plan.Size;
    hide Plan.Tags;
    hide Plan.Flag;
    forall k: nat | k < |p.List(s, c)| ensures p.Tags(e)[p.Size(s, e) + k].id == p.Tags(c)[p.List(s, c)[k]].id {
      assert p.Copied(s, e, c, k);
    }
  }

  lemma HandedIs(p: Plan, f: Proc -> seq<Vec>, sel: int -> bool, d: nat, s: nat, c: Proc)
    requires p.Recorded() && s < |p.swaps| && d < 3
    requires forall e | InGrid(p.ax, e) :: |f(e)| == |p.Tags(e)|
    ensures Handed(p, f, sel, d, s)(c) == Held(p, f, sel, d, s + 1, s + 1)(c) - Held(p, f, sel, d, s + 1, s)(c)
  {
    hide Held;
    hide Plan.Recorded;
    hide Plan.Tags;
  }

  lemma ReturnedIs(p: Plan, f: Proc -> seq<Vec>, sel: int -> bool, d: nat, s: nat, c: Proc)
    requires p.Recorded() && s < |p.swaps| && d < 3 && InGrid(p.ax, c)
    requires forall e | InGrid(p.ax, e) :: |f(e)| == |p.Tags(e)|
    ensures p.Valid()
    ensures var e := To(p, s, c);
            && Returned(p, f, sel, d, s)(c) == Handed(p, f, sel, d, s)(e)
            && Returned(p, f, sel, d, s)(c) == Held(p, f, sel, d, s + 1, s + 1)(e) - Held(p, f, sel, d, s + 1, s)(e)
  {
    hide Held;
    hide Handed;
    hide Plan.Recorded;
    hide Plan.Valid;
    hide Plan.Tags;
    hide To;
    RecordedValid(p);
    HandedIs(p, f, sel, d, s, To(p, s, c));
  }

  lemma ToIs(p: Plan, s: nat, c: Proc)
    requires p.Valid() && s < |p.swaps| && InGrid(p.ax, c)
    ensures p.swaps[s].d < 3
    ensures To(p, s, c) == if p.swaps[s].left then LeftOf(p.ax, p.swaps[s].d, c) else RightOf(p.ax, p.swaps[s].d, c)
  {
    hide Plan.From;
    hide Axis.Valid;
  }

  lemma ReturnedAt(p: Plan, f: Proc -> seq<Vec>, sel: int -> bool, d: nat, s: nat, c: Proc)
    requires p.Recorded() && s < |p.swaps| && d < 3 && InGrid(p.ax, c)
    requires forall e | InGrid(p.ax, e) :: |f(e)| == |p.Tags(e)|
    ensures Held(p, f, sel, d, s, s)(c) == Held(p, f, sel, d, s + 1, s)(c) + Returned(p, f, sel, d, s)(c)
  {
    hide *;
    ReturnedIs(p, f, sel, d, s, c);
    var e, g, h, buf := ReversedStep(p, f, s, c);
    CopiedIds(p, s, e, c);
    HeldIs(p, f, sel, d, s, s, c);
    HeldIs(p, f, sel, d, s + 1, s, c);
    HeldIs(p, f, sel, d, s + 1, s, e);
    HeldIs(p, f, sel, d, s + 1, s + 1, e);
    var l := p.List(s, c);
    AmountAdded(g, p.Tags(c), sel, d, p.Size(s, c), l, buf, |buf|);
    AmountTail(h, p.Tags(e), sel, d, p.Size(s, e), l, p.Tags(c), |l|);
  }

  /** Undoing one swap moves forces between entries that stand for the same atom,
      and loses none. */
  lemma ReverseSwap(p: Plan, f: Proc -> seq<Vec>, sel: int -> bool, d: nat, s: nat)
    requires p.Recorded() && s < |p.swaps| && d < 3
    requires forall e | InGrid(p.ax, e) :: |f(e)| == |p.Tags(e)|
    ensures Total(p.ax, Held(p, f, sel, d, s, s)) == Total(p.ax, Held(p, f, sel, d, s + 1, s + 1))
  {
    hide *;
    RecordedValid(p);
    var H, R, B := Handed(p, f, sel, d, s), Returned(p, f, sel, d, s), Held(p, f, sel, d, s + 1, s);
    forall c | InGrid(p.ax, c)
      ensures Held(p, f, sel, d, s, s)(c) == B(c) + R(c)
      ensures Held(p, f, sel, d, s + 1, s + 1)(c) == B(c) + H(c)
    {
      ReturnedAt(p, f, sel, d, s, c);
      HandedIs(p, f, sel, d, s, c);
    }
    TotalAdd(p.ax, B, R, Held(p, f, sel, d, s, s));
    TotalAdd(p.ax, B, H, Held(p, f, sel, d, s + 1, s + 1));
    var w := p.swaps[s];
    forall c | InGrid(p.ax, c) ensures R(c) == H(if w.left then LeftOf(p.ax, w.d, c) else RightOf(p.ax, w.d, c)) {
      ToIs(p, s, c);
      ReturnedIs(p, f, sel, d, s, c);
    }
    if w.left { TotalLeft(p.ax, w.d, R, H); } else { TotalRight(p.ax, w.d, R, H); }
  }

  lemma {:induction false} ReverseAll(p: Plan, f: Proc -> seq<Vec>, sel: int -> bool, d: nat, s: nat)
    requires p.Recorded() && s <= |p.swaps| && d < 3
    requires forall e | InGrid(p.ax, e) :: |f(e)| == |p.Tags(e)|
    ensures Total(p.ax, Held(p, f, sel, d, s, s)) == Total(p.ax, Held(p, f, sel, d, |p.swaps|, |p.swaps|))
    decreases |p.swaps| - s
  {
    hide *;
    if s < |p.swaps| {
      ReverseSwap(p, f, sel, d, s);
      ReverseAll(p, f, sel, d, s + 1);
    }
  }

  lemma {:induction false} AmountSingle(f: seq<Vec>, tags: seq<Tag>, sel: int -> bool, d: nat, n: nat, i: nat)
    requires d < 3 && n <= |f| && n <= |tags| && forall j :: 0 <= j < n && j != i ==> !sel(tags[j].id)
    ensures Amount(f, tags, sel, d, n) == if i < n && sel(tags[i].id) then f[i].At(d) else 0.0
  {
    if n > 0 { AmountSingle(f, tags, sel, d, n - 1, i); }
  }

  /** The forces on all entries of e, own and ghost, that stand for selected atoms. */
  ghost function Forces(p: Plan, f: Proc -> seq<Vec>, sel: int -> bool, d: nat): Proc -> real
    requires d < 3
  {
    (e: Proc) => if |f(e)| == |p.Tags(e)| then Amount(f(e), p.Tags(e), sel, d, |p.Tags(e)|) else 0.0
  }

  /** Likewise for the own atoms of e when reverse_communicate returns. */
  ghost function Owned(p: Plan, f: Proc -> seq<Vec>, sel: int -> bool, d: nat): Proc -> real
    requires p.Recorded() && d < 3 && forall e | InGrid(p.ax, e) :: |f(e)| == |p.Tags(e)|
  {
    (e: Proc) => if InGrid(p.ax, e) then SizeFits(p, 0, e); Amount(Reversed(p, f, 0, e), p.Tags(e), sel, d, p.nlocal(e)) else 0.0
  }

  lemma SizeEnds(p: Plan, e: Proc)
    requires p.Recorded() && InGrid(p.ax, e)
    ensures p.Valid() && p.Size(0, e) == p.nlocal(e) && p.Size(|p.swaps|, e) == |p.Tags(e)|
  {
    hide Plan.Good;
  }

  /** Whatever atoms are selected, what their own entries hold afterwards is what
      all their images held before. */
  lemma ForcesReturn(p: Plan, f: Proc -> seq<Vec>, sel: int -> bool, d: nat)
    requires p.Recorded() && d < 3 && forall e | InGrid(p.ax, e) :: |f(e)| == |p.Tags(e)|
    ensures Total(p.ax, Owned(p, f, sel, d)) == Total(p.ax, Forces(p, f, sel, d))
  {
    hide *;
    ReverseAll(p, f, sel, d, 0);
    forall e | InGrid(p.ax, e)
      ensures Owned(p, f, sel, d)(e) == Held(p, f, sel, d, 0, 0)(e)
      ensures Forces(p, f, sel, d)(e) == Held(p, f, sel, d, |p.swaps|, |p.swaps|)(e)
    {
      HeldAtEnds(p, f, sel, d, e);
    }
    TotalEq(p.ax, Owned(p, f, sel, d), Held(p, f, sel, d, 0, 0));
    TotalEq(p.ax, Forces(p, f, sel, d), Held(p, f, sel, d, |p.swaps|, |p.swaps|));
  }

  lemma HeldAtEnds(p: Plan, f: Proc -> seq<Vec>, sel: int -> bool, d: nat, e: Proc)
    requires p.Recorded() && d < 3 && forall e | InGrid(p.ax, e) :: |f(e)| == |p.Tags(e)|
    requires InGrid(p.ax, e)
    ensures Owned(p, f, sel, d)(e) == Held(p, f, sel, d, 0, 0)(e)
    ensures Forces(p, f, sel, d)(e) == Held(p, f, sel, d, |p.swaps|, |p.swaps|)(e)
  {
    hide Plan.Recorded;
    hide Plan.Size;
    hide Plan.Tags;
    hide Amount;
    hide Held;
    SizeEnds(p, e);
    HeldIs(p, f, sel, d, 0, 0, e);
    HeldIs(p, f, sel, d, |p.swaps|, |p.swaps|, e);
    assert Reversed(p, f, |p.swaps|, e) == f(e);
  }

  /** No other own entry bears the name of own entry i of c. */
  ghost predicate Sole(p: Plan, c: Proc, i: nat) {
    && i < p.nlocal(c) && i < |p.Tags(c)|
    && forall e, j: nat | InGrid(p.ax, e) && j < p.nlocal(e) && j < |p.Tags(e)| && p.Tags(e)[j].id == p.Tags(c)[i].id :: e == c && j == i
  }

  /** Adjointness: an own atom ends with its own force and those of all its ghosts,
      wherever they are and however often they were forwarded. */
  lemma ForceGathered(p: Plan, f: Proc -> seq<Vec>, c: Proc, i: nat, d: nat)
    requires p.Recorded() && d < 3 && forall e | InGrid(p.ax, e) :: |f(e)| == |p.Tags(e)|
    requires InGrid(p.ax, c) && Sole(p, c, i)
    ensures Reversed(p, f, 0, c)[i].At(d) == Total(p.ax, Forces(p, f, id => id == p.Tags(c)[i].id, d))
  {
    var id := p.Tags(c)[i].id;
    var sel := k => k == id;
    forall e | InGrid(p.ax, e) ensures Owned(p, f, sel, d)(e) == if e == c then Reversed(p, f, 0, c)[i].At(d) else 0.0 {
      hide Plan.Recorded;
      hide Plan.Tags;
      hide Amount;
      hide Reversed;
      SizeFits(p, 0, e);
      SizeEnds(p, e);
      AmountSingle(Reversed(p, f, 0, e), p.Tags(e), sel, d, p.nlocal(e), if e == c then i else p.nlocal(e));
    }
    TotalPoint(p.ax, Owned(p, f, sel, d), c);
    ForcesReturn(p, f, sel, d);
  }

  /** No force is lost: the own atoms together end with what all entries held. */
  lemma TotalForce(p: Plan, f: Proc -> seq<Vec>, d: nat)
    requires p.Recorded() && d < 3 && forall e | InGrid(p.ax, e) :: |f(e)| == |p.Tags(e)|
    ensures Total(p.ax, Owned(p, f, _ => true, d)) == Total(p.ax, Forces(p, f, _ => true, d))
  {
    ForcesReturn(p, f, _ => true, d);
  }
}
