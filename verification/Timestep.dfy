/** Between two reneighbourings: communicate before the forces are computed and
    reverse_communicate after, on what exchange and borders left behind. */
module Timestep {
  import opened Vec3
  import opened Grid
  import opened Sums
  import opened Exchange
  import opened Borders
  import opened Swaps
  import opened Recording
  import opened Reverse
  import opened Reneighbor

  lemma PlanParts(w: World, c: Proc)
    requires w.Valid() && InGrid(w.ax, c)
    ensures PlanOf(w).Recorded() && PlanOf(w).Valid() && PlanOf(w).ax == w.ax
    ensures PlanOf(w).Tags(c) == TagsOf(w.Final(c)) && PlanOf(w).nlocal(c) == |w.own(c)|
    ensures PlanOf(w).Size(|PlanOf(w).swaps|, c) == |w.Final(c)| == |PlanOf(w).Tags(c)|
    ensures |w.own(c)| <= |w.Final(c)| && w.Final(c)[..|w.own(c)|] == w.own(c)
  {
    assert PlanOf(w) == PlanAt(w, 2, w.Hops(2)) && PlanOf(w).ax == w.ax && PlanOf(w).nlocal(c) == |w.own(c)|;
    hide *;
    FinalIs(w, c);
    MadeRecorded(w, 2, w.Hops(2));
    PlanTags(w, 2, w.Hops(2), c);
    OwnFirst(w, 2, w.Hops(2), c);
    SizeEnds(PlanOf(w), c);
  }

  /** communicate: once the own atoms have moved anywhere, base, every ghost of every
      process is put at its own atom's new position plus the periods between them,
      whatever was stored there. */
  lemma GhostsFollow(w: World, base: map<int, Vec>, x: Proc -> seq<Vec>, c: Proc, j: nat)
    requires w.Valid() && InGrid(w.ax, c)
    requires forall e | InGrid(w.ax, e) :: |x(e)| == |w.Final(e)|
    requires forall e, i | InGrid(w.ax, e) && 0 <= i < |w.own(e)| && i < |x(e)| ::
               w.own(e)[i].tag.id in base && x(e)[i] == Pos(w.ax, base, w.own(e)[i].tag)
    requires j < |w.Final(c)|
    ensures var p := PlanOf(w);
            && p.Recorded() && p.ax == w.ax && (forall e | InGrid(w.ax, e) :: |x(e)| == |p.Tags(e)|)
            && w.Final(c)[j].tag.id in base
            && Communicated(p, x, |p.swaps|, c)[j] == Pos(w.ax, base, w.Final(c)[j].tag)
  {
    var p := PlanOf(w);
    hide *;
    PlanParts(w, c);
    forall e | InGrid(p.ax, e) ensures |x(e)| == |p.Tags(e)| && Current(p, base, e, x(e), p.nlocal(e)) {
      OwnCurrent(w, base, x(e), e);
    }
    Replayed(p, base, x, |p.swaps|, c);
    CurrentAt(w, base, Communicated(p, x, |p.swaps|, c), c, j);
  }

  lemma OwnCurrent(w: World, base: map<int, Vec>, x: seq<Vec>, c: Proc)
    requires w.Valid() && InGrid(w.ax, c) && |x| == |w.Final(c)|
    requires forall i | 0 <= i < |w.own(c)| && i < |x| ::
               w.own(c)[i].tag.id in base && x[i] == Pos(w.ax, base, w.own(c)[i].tag)
    ensures |x| == |PlanOf(w).Tags(c)| && Current(PlanOf(w), base, c, x, PlanOf(w).nlocal(c))
  {
    hide World.Valid;
    hide World.Final;
    hide PlanOf;
    hide Plan.Recorded;
    hide Plan.Valid;
    hide Plan.Size;
    hide Plan.Tags;
    hide Pos;
    PlanParts(w, c);
    var p := PlanOf(w);
    forall i: nat | i < p.nlocal(c) ensures Tracks(p, base, c, i, x[i]) {
      assert w.own(c)[i] == w.Final(c)[..|w.own(c)|][i];
    }
  }

  lemma CurrentAt(w: World, base: map<int, Vec>, y: seq<Vec>, c: Proc, j: nat)
    requires w.Valid() && InGrid(w.ax, c) && j < |w.Final(c)|
    requires Current(PlanOf(w), base, c, y, |w.Final(c)|)
    ensures w.Final(c)[j].tag.id in base && j < |y| && y[j] == Pos(w.ax, base, w.Final(c)[j].tag)
  {
    hide World.Valid;
    hide World.Final;
    hide PlanOf;
    hide Plan.Recorded;
    hide Plan.Valid;
    hide Plan.Size;
    hide Plan.Tags;
    hide Pos;
    PlanParts(w, c);
    assert Tracks(PlanOf(w), base, c, j, y[j]);
  }

  /** After exchange an atom is held by one process, at one index. */
  lemma OneOwner(r: Run, part: map<int, Particle>, c: Proc, i: nat, e: Proc, j: nat)
    requires Ready(r, part) && InGrid(r.ax, c) && i < |r.Local(3, c)| && InGrid(r.ax, e) && j < |r.Local(3, e)|
    requires r.Local(3, c)[i].id == r.Local(3, e)[j].id
    ensures e == c && j == i
  {
    AfterParts(r, part, 1.0, c);
    hide *;
    var q := r.Local(3, c)[i];
    HeldNamed(r, part, c, q);
    HeldNamed(r, part, e, r.Local(3, e)[j]);
    var h := Holder(r, part, q);
    MemberCount(r.Local(3, e), j);
    MemberCount(r.Local(3, c), i);
    OnceAt(r.Local(3, h), q, i, j);
  }

  /** After exchange each own entry is the only one of its atom. */
  lemma OwnSole(r: Run, part: map<int, Particle>, cut: real, c: Proc, i: nat)
    requires Ready(r, part) && cut >= 0.0 && InGrid(r.ax, c) && i < |r.Local(3, c)|
    ensures After(r, cut).Valid() && Sole(PlanOf(After(r, cut)), c, i)
    ensures PlanOf(After(r, cut)).Recorded() && PlanOf(After(r, cut)).ax == r.ax
    ensures i < |PlanOf(After(r, cut)).Tags(c)| && PlanOf(After(r, cut)).Tags(c)[i] == Tag(r.Local(3, c)[i].id, ORIGIN)
  {
    AfterParts(r, part, cut, c);
    var w, q := After(r, cut), r.Local(3, c)[i];
    var p := PlanOf(w);
    hide *;
    PlanParts(w, c);
    OwnTag(r, w, c, i);
    forall e, j: nat | InGrid(p.ax, e) && j < p.nlocal(e) && j < |p.Tags(e)| && p.Tags(e)[j].id == q.id ensures e == c && j == i {
      AfterParts(r, part, cut, e);
      PlanParts(w, e);
      OwnTag(r, w, e, j);
      OneOwner(r, part, c, i, e, j);
    }
    SoleFrom(p, c, i);
  }

  lemma AfterParts(r: Run, part: map<int, Particle>, cut: real, c: Proc)
    requires Ready(r, part) && cut >= 0.0 && InGrid(r.ax, c)
    ensures r.Valid() && After(r, cut).Valid() && After(r, cut).ax == r.ax
    ensures After(r, cut).own(c) == Own(r.Local(3, c))
    ensures |After(r, cut).own(c)| == |r.Local(3, c)|
  {
    hide Run.Local;
    hide OnePeriodOut;
    hide Reachable;
    hide Named;
  }

  lemma MemberCount(s: seq<Particle>, i: nat)
    requires i < |s|
    ensures multiset(s)[s[i]] > 0
  {
    assert s[i] in s;
  }

  lemma SoleFrom(p: Plan, c: Proc, i: nat)
    requires i < p.nlocal(c) && i < |p.Tags(c)|
    requires forall e, j: nat | InGrid(p.ax, e) && j < p.nlocal(e) && j < |p.Tags(e)| && p.Tags(e)[j].id == p.Tags(c)[i].id :: e == c && j == i
    ensures Sole(p, c, i)
  {}

  lemma OwnTag(r: Run, w: World, c: Proc, i: nat)
    requires r.Valid() && w.Valid() && w.ax == r.ax && InGrid(r.ax, c) && w.own(c) == Own(r.Local(3, c)) && i < |r.Local(3, c)|
    ensures i < |PlanOf(w).Tags(c)| && PlanOf(w).Tags(c)[i] == Tag(r.Local(3, c)[i].id, ORIGIN)
  {
    var o := w.own(c);
    assert o[i].tag == Tag(r.Local(3, c)[i].id, ORIGIN);
    hide *;
    PlanParts(w, c);
    assert o[i] == w.Final(c)[..|o|][i];
  }

  lemma TwiceAt(s: seq<Particle>, i: nat, j: nat)
    requires i < j < |s| && s[i] == s[j]
    ensures multiset(s)[s[i]] >= 2
  {
    assert s == s[..i] + [s[i]] + s[i + 1..j] + [s[i]] + s[j + 1..];
  }

  lemma OnceAt(s: seq<Particle>, q: Particle, i: nat, j: nat)
    requires multiset(s)[q] == 1 && i < |s| && j < |s| && s[i] == q && s[j] == q
    ensures i == j
  {
    if i < j { TwiceAt(s, i, j); }
    if j < i { TwiceAt(s, j, i); }
  }

  /** reverse_communicate: the force on an own atom ends as its own plus those of
      all its ghosts on all processes. */
  lemma GhostsGiveBack(r: Run, part: map<int, Particle>, cut: real, f: Proc -> seq<Vec>, c: Proc, i: nat, d: nat)
    requires Ready(r, part) && cut >= 0.0 && InGrid(r.ax, c) && i < |r.Local(3, c)| && d < 3
    requires After(r, cut).Valid() && forall e | InGrid(r.ax, e) :: |f(e)| == |PlanOf(After(r, cut)).Tags(e)|
    ensures var p, id := PlanOf(After(r, cut)), r.Local(3, c)[i].id;
            && p.Recorded() && p.ax == r.ax && i < |p.Tags(c)|
            && Reversed(p, f, 0, c)[i].At(d) == Total(r.ax, Forces(p, f, k => k == id, d))
  {
    AfterParts(r, part, cut, c);
    hide *;
    OwnSole(r, part, cut, c, i);
    ForceGathered(PlanOf(After(r, cut)), f, c, i, d);
  }
}
