/** The swaps that borders records are the swaps it made. */
module Recording {
  import opened Vec3
  import opened Grid
  import opened Borders
  import opened Swaps

  /** The indices in from..to of the entries that lie in the slab: sendlist. */
  function Picked(s: seq<Copy>, from: nat, to: nat, d: nat, lo: real, hi: real): (l: seq<nat>)
    requires from <= to <= |s| && d < 3
  {
    if from == to then [] else
      Picked(s, from, to - 1, d, lo, hi) + if InSlab(s[to - 1], d, lo, hi) then [to - 1] else []
  }

  /** What is sent is what is listed. */
  lemma {:induction false} PickedSent(s: seq<Copy>, from: nat, to: nat, d: nat, lo: real, hi: real, flag: int, prd: real)
    requires from <= to <= |s| && d < 3
    ensures var l, b := Picked(s, from, to, d, lo, hi), Sent(s[from..to], d, lo, hi, flag, prd);
            |l| == |b| && Below(l, to) && forall n :: 0 <= n < |l| ==> b[n] == Shift(s[l[n]], d, flag, prd)
  {
    if from < to {
      assert s[from..to][..to - from - 1] == s[from..to - 1];
      PickedSent(s, from, to - 1, d, lo, hi, flag, prd);
    }
  }

  /** First of the entries scanned in hop h; the last is the last held. */
  function First(w: World, d: nat, h: nat, c: Proc): (n: nat)
    requires w.Valid() && d < 3 && InGrid(w.ax, c)
    ensures n <= |w.Held(d, h, c)|
  {
    if h == 0 then 0 else |w.Held(d, h - 1, c)|
  }

  lemma ScanRange(w: World, d: nat, h: nat, c: Proc)
    requires w.Valid() && d < 3 && InGrid(w.ax, c)
    ensures w.Held(d, h, c)[First(w, d, h, c)..] == w.Scan(d, h, c)
  {}

  ghost function ListOf(w: World, d: nat, h: nat, left: bool): Proc -> seq<nat>
    requires w.Valid() && d < 3
  {
    (c: Proc) =>
      if !InGrid(w.ax, c) then [] else
        var a, i, s := w.ax.At(d), c.At(d), w.Held(d, h, c);
        if left then Picked(s, First(w, d, h, c), |s|, d, a.LeftSlabLo(i, h), a.LeftSlabHi(i, h, w.cut))
        else Picked(s, First(w, d, h, c), |s|, d, a.RightSlabLo(i, h, w.cut), a.RightSlabHi(i, h))
  }

  ghost function FirstOf(w: World, d: nat, h: nat, left: bool): Proc -> nat
    requires w.Valid() && d < 3
  {
    (c: Proc) =>
      if !InGrid(w.ax, c) then 0 else
        |w.Held(d, h, c)| + if left then 0 else |w.SendLeft(d, h, RightOf(w.ax, d, c))|
  }

  ghost function SwapOf(w: World, d: nat, h: nat, left: bool): Swap
    requires w.Valid() && d < 3
  {
    Swap(d, left, ListOf(w, d, h, left), FirstOf(w, d, h, left))
  }

  /** The swaps made before hop h of dimension d. */
  ghost function Made(w: World, d: nat, h: nat): seq<Swap>
    requires w.Valid() && d < 3
    decreases d, h
  {
    if h > 0 then Made(w, d, h - 1) + [SwapOf(w, d, h - 1, true), SwapOf(w, d, h - 1, false)]
    else if d > 0 then Made(w, d - 1, w.Hops(d - 1))
    else []
  }

  function TagsOf(s: seq<Copy>): (t: seq<Tag>)
    ensures |t| == |s| && forall i :: 0 <= i < |s| ==> t[i] == s[i].tag
  {
    seq(|s|, i requires 0 <= i < |s| => s[i].tag)
  }

  ghost function TagsHeld(w: World, d: nat, h: nat): Proc -> seq<Tag>
    requires w.Valid() && d < 3
    decreases d
  {
    if h == 0 && d > 0 then TagsHeld(w, d - 1, w.Hops(d - 1))
    else (c: Proc) => if InGrid(w.ax, c) then TagsOf(w.Held(d, h, c)) else []
  }

  lemma {:induction false} TagsHeldAre(w: World, d: nat, h: nat, c: Proc)
    requires w.Valid() && d < 3 && InGrid(w.ax, c)
    ensures TagsHeld(w, d, h)(c) == TagsOf(w.Held(d, h, c))
    decreases d
  {
    if h == 0 && d > 0 { TagsHeldAre(w, d - 1, w.Hops(d - 1), c); }
  }

  /** After the left half of hop h. */
  ghost function TagsBetween(w: World, d: nat, h: nat): Proc -> seq<Tag>
    requires w.Valid() && d < 3
  {
    (c: Proc) => if InGrid(w.ax, c) then TagsOf(w.Held(d, h, c) + w.SendLeft(d, h, RightOf(w.ax, d, c))) else []
  }

  ghost function OwnSize(w: World): Proc -> nat {
    (c: Proc) => |w.own(c)|
  }

  ghost function PlanAt(w: World, d: nat, h: nat): Plan
    requires w.Valid() && d < 3
  {
    Plan(w.ax, Made(w, d, h), OwnSize(w), TagsHeld(w, d, h))
  }

  /** What borders leaves for communicate and reverse_communicate. */
  ghost function PlanOf(w: World): Plan
    requires w.Valid()
  {
    PlanAt(w, 2, w.Hops(2))
  }

  /** Plan p followed by one more swap. */
  function Extended(p: Plan, w: Swap, tags: Proc -> seq<Tag>): Plan {
    Plan(p.ax, p.swaps + [w], p.nlocal, tags)
  }

  lemma {:induction false} ExtendedSize(p: Plan, w: Swap, tags: Proc -> seq<Tag>, s: nat, c: Proc)
    requires p.Valid() && w.d < 3 && s <= |p.swaps| && InGrid(p.ax, c)
    ensures Extended(p, w, tags).Valid() && Extended(p, w, tags).Size(s, c) == p.Size(s, c)
  {
    hide Swap.From;
    if s > 0 {
      ExtendedSize(p, w, tags, s - 1, c);
      assert (p.swaps + [w])[s - 1] == p.swaps[s - 1];
    }
  }

  /** What one more swap adds to c. */
  function Gained(p: Plan, w: Swap, c: Proc): seq<Tag>
    requires p.Valid() && w.d < 3 && InGrid(p.ax, c) && Below(w.list(w.From(p.ax, c)), |p.Tags(w.From(p.ax, c))|)
  {
    var q := w.From(p.ax, c);
    seq(|w.list(q)|, n requires 0 <= n < |w.list(q)| => Shifted(p.Tags(q)[w.list(q)[n]], w.d, w.Flag(p.ax, q)))
  }

  ghost predicate Extends(p: Plan, w: Swap, tags: Proc -> seq<Tag>, c: Proc)
    requires p.Valid() && w.d < 3 && InGrid(p.ax, c)
  {
    && w.first(c) == |p.Tags(c)|
    && Below(w.list(w.From(p.ax, c)), |p.Tags(w.From(p.ax, c))|)
    && tags(c) == p.Tags(c) + Gained(p, w, c)
  }

  lemma ExtendedGood(p: Plan, w: Swap, tags: Proc -> seq<Tag>, s: nat, c: Proc)
    requires p.Recorded() && w.d < 3 && forall c | InGrid(p.ax, c) :: Extends(p, w, tags, c)
    requires s < |p.swaps| && InGrid(p.ax, c)
    ensures Extended(p, w, tags).Valid() && Extended(p, w, tags).Good(s, c)
  {
    var x := Extended(p, w, tags);
    hide Swap.From;
    hide Swap.Flag;
    hide Plan.Size;
    hide Shifted;
    hide Gained;
    GoodAt(p, s, c);
    ExtendedSize(p, w, tags, s, c);
    var q := p.From(s, c);
    ExtendedSize(p, w, tags, s, q);
    assert x.swaps[s] == p.swaps[s];
    assert Extends(p, w, tags, c) && Extends(p, w, tags, q);
    forall n: nat | n < |x.List(s, q)| ensures x.Copied(s, c, q, n) {
      assert p.Copied(s, c, q, n);
    }
  }

  lemma LastShape(p: Plan, w: Swap, tags: Proc -> seq<Tag>, c: Proc)
    requires p.Valid() && w.d < 3 && InGrid(p.ax, c) && InGrid(p.ax, w.From(p.ax, c))
    ensures var x, s := Extended(p, w, tags), |p.swaps|;
            && x.Valid() && x.ax == p.ax && |x.swaps| == s + 1 && x.swaps[s] == w
            && x.From(s, c) == w.From(p.ax, c)
            && x.List(s, c) == w.list(c) && x.Tags(c) == tags(c)
            && x.Flag(s, c) == w.Flag(p.ax, c)
            && x.Size(s + 1, c) == x.Size(s, c) + |w.list(w.From(p.ax, c))|
  {
    hide Swap.From;
    hide Swap.Flag;
  }

  lemma RecordedSize(p: Plan, c: Proc)
    requires p.Recorded() && InGrid(p.ax, c)
    ensures p.Valid() && |p.Tags(c)| == p.Size(|p.swaps|, c)
  {
    hide Plan.Good;
    hide Plan.Size;
  }

  lemma ExtendsParts(p: Plan, w: Swap, tags: Proc -> seq<Tag>, c: Proc)
    requires p.Valid() && w.d < 3 && InGrid(p.ax, c) && Extends(p, w, tags, c)
    ensures var q := w.From(p.ax, c);
            && w.first(c) == |p.Tags(c)| && Below(w.list(q), |p.Tags(q)|)
            && |tags(c)| == |p.Tags(c)| + |w.list(q)|
            && (forall n :: 0 <= n < |w.list(q)| ==> w.list(q)[n] < |p.Tags(q)|)
            && forall n :: 0 <= n < |w.list(q)| ==> tags(c)[|p.Tags(c)| + n] == Shifted(p.Tags(q)[w.list(q)[n]], w.d, w.Flag(p.ax, q))
    ensures |p.Tags(c)| <= |tags(c)| && forall j :: 0 <= j < |p.Tags(c)| ==> tags(c)[j] == p.Tags(c)[j]
  {
    hide Swap.From;
    hide Swap.Flag;
    hide Shifted;
    hide Plan.Tags;
  }

  lemma LastGood(p: Plan, w: Swap, tags: Proc -> seq<Tag>, c: Proc)
    requires p.Recorded() && w.d < 3 && forall c | InGrid(p.ax, c) :: Extends(p, w, tags, c)
    requires InGrid(p.ax, c)
    ensures Extended(p, w, tags).Valid() && Extended(p, w, tags).Good(|p.swaps|, c)
    ensures |tags(c)| == Extended(p, w, tags).Size(|p.swaps| + 1, c)
  {
    hide *;
    RecordedSize(p, c);
    var x, s, q := Extended(p, w, tags), |p.swaps|, w.From(p.ax, c);
    LastShape(p, w, tags, c);
    LastShape(p, w, tags, q);
    ExtendedSize(p, w, tags, s, c);
    ExtendedSize(p, w, tags, s, q);
    RecordedSize(p, q);
    ExtendsParts(p, w, tags, c);
    ExtendsParts(p, w, tags, q);
    forall n: nat | n < |x.List(s, q)| ensures x.Copied(s, c, q, n) {
      var i := w.list(q)[n];
      assert i < |p.Tags(q)| && tags(q)[i] == p.Tags(q)[i];
      assert tags(c)[|p.Tags(c)| + n] == Shifted(p.Tags(q)[i], w.d, w.Flag(p.ax, q));
      CopiedFrom(x, s, c, q, n, |p.Tags(q)|);
    }
    GoodFrom(x, s, c, q);
  }

  lemma CopiedFrom(p: Plan, s: nat, c: Proc, q: Proc, n: nat, m: nat)
    requires p.Valid() && s < |p.swaps| && InGrid(p.ax, c) && InGrid(p.ax, q)
    requires n < |p.List(s, q)| && Below(p.List(s, q), m) && m <= |p.Tags(q)| && p.Size(s, c) + |p.List(s, q)| <= |p.Tags(c)|
    requires p.Tags(c)[p.Size(s, c) + n] == Shifted(p.Tags(q)[p.List(s, q)[n]], p.swaps[s].d, p.Flag(s, q))
    ensures p.Copied(s, c, q, n)
  {
    hide Plan.From;
    hide Plan.List;
    hide Plan.Size;
    hide Plan.Flag;
    hide Plan.Tags;
    hide Shifted;
  }

  lemma GoodFrom(p: Plan, s: nat, c: Proc, q: Proc)
    requires p.Valid() && s < |p.swaps| && InGrid(p.ax, c) && q == p.From(s, c)
    requires p.swaps[s].first(c) == p.Size(s, c)
    requires p.Size(s, c) + |p.List(s, q)| <= |p.Tags(c)|
    requires p.Size(s, q) <= |p.Tags(q)| && Below(p.List(s, q), p.Size(s, q))
    requires forall n: nat | n < |p.List(s, q)| :: p.Copied(s, c, q, n)
    ensures p.Good(s, c)
  {
    hide Plan.From;
    hide Plan.List;
    hide Plan.Size;
    hide Plan.Copied;
  }

  lemma ExtendedRecorded(p: Plan, w: Swap, tags: Proc -> seq<Tag>)
    requires p.Recorded() && w.d < 3 && forall c | InGrid(p.ax, c) :: Extends(p, w, tags, c)
    ensures Extended(p, w, tags).Recorded()
  {
    var x := Extended(p, w, tags);
    hide Plan.Good;
    hide Plan.Size;
    hide Extends;
    hide Axis.Valid;
    forall s: nat, c | s < |x.swaps| && InGrid(x.ax, c) ensures x.Valid() && x.Good(s, c) {
      if s < |p.swaps| { ExtendedGood(p, w, tags, s, c); } else { LastGood(p, w, tags, c); }
    }
    forall c | InGrid(x.ax, c) ensures x.Valid() && |x.Tags(c)| == x.Size(|x.swaps|, c) {
      LastGood(p, w, tags, c);
    }
  }

  /** What arrives at c, tag by tag. */
  lemma SentTags(w: World, d: nat, h: nat, q: Proc, left: bool)
    requires w.Valid() && d < 3 && InGrid(w.ax, q)
    ensures var a, s, l := w.ax.At(d), w.Held(d, h, q), ListOf(w, d, h, left)(q);
            var b := if left then w.SendLeft(d, h, q) else w.SendRight(d, h, q);
            var flag := if left then a.LeftFlag(q.At(d)) else a.RightFlag(q.At(d));
            && |b| == |l| && Below(l, |s|)
            && (forall n :: 0 <= n < |l| ==> l[n] < |s|)
            && forall n :: 0 <= n < |l| ==> b[n].tag == Shifted(s[l[n]].tag, d, flag)
  {
    var a, i, s := w.ax.At(d), q.At(d), w.Held(d, h, q);
    var m := First(w, d, h, q);
    ScanRange(w, d, h, q);
    assert s[m..|s|] == w.Scan(d, h, q);
    hide World.Held;
    hide Axis.Edge;
    if left {
      PickedSent(s, m, |s|, d, a.LeftSlabLo(i, h), a.LeftSlabHi(i, h, w.cut), a.LeftFlag(i), a.prd);
    } else {
      PickedSent(s, m, |s|, d, a.RightSlabLo(i, h, w.cut), a.RightSlabHi(i, h), a.RightFlag(i), a.prd);
    }
  }

  lemma ExtendsFrom(p: Plan, v: Swap, tags: Proc -> seq<Tag>, c: Proc, q: Proc, sc: seq<Copy>, sq: seq<Copy>, b: seq<Copy>)
    requires p.Valid() && v.d < 3 && InGrid(p.ax, c) && InGrid(p.ax, q) && v.From(p.ax, c) == q
    requires p.Tags(c) == TagsOf(sc) && v.first(c) == |sc| && tags(c) == TagsOf(sc + b)
    requires |sq| <= |p.Tags(q)| && forall j :: 0 <= j < |sq| ==> p.Tags(q)[j] == sq[j].tag
    requires |b| == |v.list(q)| && forall n :: 0 <= n < |b| ==> v.list(q)[n] < |sq|
    requires forall n :: 0 <= n < |b| ==> b[n].tag == Shifted(sq[v.list(q)[n]].tag, v.d, v.Flag(p.ax, q))
    ensures Extends(p, v, tags, c)
  {
    hide Swap.From;
    hide Swap.Flag;
    hide Shifted;
    hide Plan.Tags;
    hide Plan.Valid;
    assert forall n :: 0 <= n < |v.list(q)| ==> v.list(q)[n] < |p.Tags(q)|;
    var g := Gained(p, v, c);
    forall n | 0 <= n < |g| ensures g[n] == b[n].tag {
      assert v.list(q)[n] < |sq|;
    }
    assert tags(c) == p.Tags(c) + g;
  }

  lemma SwapParts(w: World, d: nat, h: nat, c: Proc, left: bool)
    requires w.Valid() && d < 3 && InGrid(w.ax, c)
    ensures var v, a := SwapOf(w, d, h, left), w.ax.At(d);
            var q := if left then RightOf(w.ax, d, c) else LeftOf(w.ax, d, c);
            && v.d == d && v.From(w.ax, c) == q && InGrid(w.ax, q)
            && v.list(q) == ListOf(w, d, h, left)(q)
            && v.Flag(w.ax, q) == (if left then a.LeftFlag(q.At(d)) else a.RightFlag(q.At(d)))
            && v.first(c) == |w.Held(d, h, c)| + if left then 0 else |w.SendLeft(d, h, RightOf(w.ax, d, c))|
  {
    hide World.Held;
    hide World.SendLeft;
    hide Axis.Valid;
    hide ListOf;
  }

  lemma PlanTags(w: World, d: nat, h: nat, c: Proc)
    requires w.Valid() && d < 3 && InGrid(w.ax, c)
    ensures PlanAt(w, d, h).Tags(c) == TagsOf(w.Held(d, h, c))
  {
    hide Made;
    TagsHeldAre(w, d, h, c);
  }

  lemma BetweenTags(w: World, d: nat, h: nat, c: Proc)
    requires w.Valid() && d < 3 && InGrid(w.ax, c)
    ensures TagsBetween(w, d, h)(c) == TagsOf(w.Held(d, h, c) + w.SendLeft(d, h, RightOf(w.ax, d, c)))
  {
    hide World.Held;
    hide World.SendLeft;
  }

  lemma LeftExtends(w: World, d: nat, h: nat, c: Proc)
    requires w.Valid() && d < 3 && InGrid(w.ax, c) && PlanAt(w, d, h).Valid() && PlanAt(w, d, h).ax == w.ax
    requires SwapOf(w, d, h, true).d == d
    ensures Extends(PlanAt(w, d, h), SwapOf(w, d, h, true), TagsBetween(w, d, h), c)
  {
    hide *;
    SwapParts(w, d, h, c, true);
    var q := RightOf(w.ax, d, c);
    SentTags(w, d, h, q, true);
    PlanTags(w, d, h, c);
    PlanTags(w, d, h, q);
    BetweenTags(w, d, h, c);
    ExtendsFrom(PlanAt(w, d, h), SwapOf(w, d, h, true), TagsBetween(w, d, h), c, q,
                w.Held(d, h, c), w.Held(d, h, q), w.SendLeft(d, h, q));
  }

  lemma HeldParts(w: World, d: nat, h: nat, c: Proc)
    requires w.Valid() && d < 3 && InGrid(w.ax, c)
    ensures InGrid(w.ax, RightOf(w.ax, d, c)) && InGrid(w.ax, LeftOf(w.ax, d, c))
    ensures w.Held(d, h + 1, c) == w.Held(d, h, c) + w.SendLeft(d, h, RightOf(w.ax, d, c)) + w.SendRight(d, h, LeftOf(w.ax, d, c))
  {
    assert w.Held(d, h + 1, c) == w.Held(d, h, c) + w.Arrivals(d, h, c);
    assert w.Arrivals(d, h, c) == w.SendLeft(d, h, RightOf(w.ax, d, c)) + w.SendRight(d, h, LeftOf(w.ax, d, c));
    hide *;
  }

  lemma RightExtends(w: World, d: nat, h: nat, c: Proc, p: Plan)
    requires w.Valid() && d < 3 && InGrid(w.ax, c) && p.Valid() && p.ax == w.ax && p.tags == TagsBetween(w, d, h)
    requires SwapOf(w, d, h, false).d == d
    ensures Extends(p, SwapOf(w, d, h, false), TagsHeld(w, d, h + 1), c)
  {
    assert p.Tags(c) == p.tags(c);
    assert p.Tags(LeftOf(w.ax, d, c)) == p.tags(LeftOf(w.ax, d, c));
    hide *;
    SwapParts(w, d, h, c, false);
    HeldParts(w, d, h, c);
    var q, r := LeftOf(w.ax, d, c), RightOf(w.ax, d, c);
    SentTags(w, d, h, q, false);
    BetweenTags(w, d, h, c);
    BetweenTags(w, d, h, q);
    TagsHeldAre(w, d, h + 1, c);
    HeldParts(w, d, h, q);
    ExtendsFrom(p, SwapOf(w, d, h, false), TagsHeld(w, d, h + 1), c, q,
                w.Held(d, h, c) + w.SendLeft(d, h, r), w.Held(d, h, q), w.SendRight(d, h, q));
  }

  /** Borders leaves a faithful record of its swaps: each stored index names the
      entry that was sent, and each ghost is a shifted copy of it. */
  lemma {:induction false} MadeRecorded(w: World, d: nat, h: nat)
    requires w.Valid() && d < 3
    ensures PlanAt(w, d, h).Recorded()
    decreases d, h
  {
    if h > 0 {
      var g: nat := h - 1;
      MadeRecorded(w, d, g);
      var p := PlanAt(w, d, g);
      var l, r := SwapOf(w, d, g, true), SwapOf(w, d, g, false);
      var m := Extended(p, l, TagsBetween(w, d, g));
      assert PlanAt(w, d, h) == Extended(m, r, TagsHeld(w, d, h)) by {
        assert p.swaps + [l] + [r] == p.swaps + [l, r];
      }
      hide *;
      PlanShape(w, d, g);
      forall c | InGrid(p.ax, c) ensures Extends(p, l, TagsBetween(w, d, g), c) { LeftExtends(w, d, g, c); }
      ExtendedRecorded(p, l, TagsBetween(w, d, g));
      ExtendedShape(p, l, TagsBetween(w, d, g));
      forall c | InGrid(m.ax, c) ensures Extends(m, r, TagsHeld(w, d, h), c) { RightExtends(w, d, g, c, m); }
      ExtendedRecorded(m, r, TagsHeld(w, d, h));
    } else if d > 0 {
      MadeRecorded(w, d - 1, w.Hops(d - 1));
      assert PlanAt(w, d, 0) == PlanAt(w, d - 1, w.Hops(d - 1));
    } else {
      var p := PlanAt(w, 0, 0);
      hide TagsHeld;
      forall c | InGrid(p.ax, c) ensures |p.Tags(c)| == p.Size(0, c) { TagsHeldAre(w, 0, 0, c); }
    }
  }

  lemma PlanShape(w: World, d: nat, h: nat)
    requires w.Valid() && d < 3 && PlanAt(w, d, h).Recorded()
    ensures PlanAt(w, d, h).Valid() && PlanAt(w, d, h).ax == w.ax
    ensures SwapOf(w, d, h, true).d == d && SwapOf(w, d, h, false).d == d
  {
    hide Made;
    hide Plan.Good;
  }

  lemma ExtendedShape(p: Plan, w: Swap, tags: Proc -> seq<Tag>)
    requires Extended(p, w, tags).Recorded()
    ensures Extended(p, w, tags).Valid() && Extended(p, w, tags).ax == p.ax && Extended(p, w, tags).tags == tags
  {
    hide Plan.Good;
  }
}
