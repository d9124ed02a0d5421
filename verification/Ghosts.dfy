/** The swaps of borders with the arrays the processes really have: what is lost when one
    of them has to grow. */
module Ghosts {
  import opened Vec3
  import opened Grid
  import opened Borders
  import opened Recording
  import opened Rounds
  import opened Storage

  /** The machine of Borders, the size of every process's arrays, and what fresh memory
      holds there. */
  datatype Machine = Machine(w: World, nmax: Proc -> nat, junk: Proc -> Junk<Copy>) {

    ghost predicate Valid() { w.Valid() && forall c | InGrid(w.ax, c) :: |w.own(c)| <= nmax(c) }

    /** The arrays of process c before swap n of dimension d. */
    ghost function At(d: nat, n: nat, c: Proc): (s: Store<Copy>)
      requires Valid() && d < 3 && InGrid(w.ax, c)
      ensures s.Valid()
      decreases d, n, 0
    {
      if n > 0 then PutAll(At(d, n - 1, c), Packs(d, n - 1, Sender(w.ax, d, n - 1, c)), junk(c))
      else if d > 0 then At(d - 1, 2 * w.Hops(d - 1), c)
      else Store(w.own(c), nmax(c))
    }

    /** nfirst and nlast when swap n packs. */
    ghost function To(d: nat, n: nat, c: Proc): nat
      requires Valid() && d < 3 && InGrid(w.ax, c)
      decreases d, n, 1
    {
      if n % 2 == 0 then |At(d, n, c).live| else To(d, n - 1, c)
    }

    ghost function From(d: nat, n: nat, c: Proc): nat
      requires Valid() && d < 3 && InGrid(w.ax, c)
      decreases d, n, 2
    {
      if n % 2 == 1 then From(d, n - 1, c) else if n == 0 then 0 else To(d, n - 2, c)
    }

    /** The entries process c scans in swap n. */
    ghost function Scanned(d: nat, n: nat, c: Proc): seq<Copy>
      requires Valid() && d < 3 && InGrid(w.ax, c)
      decreases d, n, 3
    {
      if From(d, n, c) <= To(d, n, c) <= |At(d, n, c).live| then At(d, n, c).live[From(d, n, c)..To(d, n, c)] else []
    }

    ghost function Packs(d: nat, n: nat, c: Proc): seq<Copy>
      requires Valid() && d < 3 && InGrid(w.ax, c)
      decreases d, n, 4
    {
      var a, i := w.ax.At(d), c.At(d);
      Sent(Scanned(d, n, c), d, SlabLo(a, i, n, w.cut), SlabHi(a, i, n, w.cut), SlabFlag(a, i, n), a.prd)
    }

    ghost function Final(c: Proc): Store<Copy>
      requires Valid() && InGrid(w.ax, c)
    {
      At(2, 2 * w.Hops(2), c)
    }
  }

  lemma AtNext(m: Machine, d: nat, n: nat, c: Proc)
    requires m.Valid() && d < 3 && InGrid(m.w.ax, c)
    ensures m.At(d, n + 1, c) == PutAll(m.At(d, n, c), m.Packs(d, n, Sender(m.w.ax, d, n, c)), m.junk(c))
    ensures |m.At(d, n + 1, c).live| == |m.At(d, n, c).live| + |m.Packs(d, n, Sender(m.w.ax, d, n, c))|
  {}

  lemma FromTo(m: Machine, d: nat, n: nat, c: Proc)
    requires m.Valid() && d < 3 && InGrid(m.w.ax, c)
    ensures m.To(d, n, c) == if n % 2 == 0 then |m.At(d, n, c).live| else m.To(d, n - 1, c)
    ensures m.From(d, n, c) == if n % 2 == 1 then m.From(d, n - 1, c) else if n == 0 then 0 else m.To(d, n - 2, c)
  {
    hide Machine.At;
  }

  /** Every swap scans a range of the array. */
  lemma {:induction false} InRange(m: Machine, d: nat, n: nat, c: Proc)
    requires m.Valid() && d < 3 && InGrid(m.w.ax, c)
    ensures m.From(d, n, c) <= m.To(d, n, c) <= |m.At(d, n, c).live|
    decreases n
  {
    hide *;
    FromTo(m, d, n, c);
    if n > 0 {
      FromTo(m, d, n - 1, c);
      InRange(m, d, n - 1, c);
      AtNext(m, d, n - 1, c);
      if n > 1 {
        FromTo(m, d, n - 2, c);
        InRange(m, d, n - 2, c);
        AtNext(m, d, n - 2, c);
      }
    }
  }

  lemma PacksIs(m: Machine, d: nat, n: nat, c: Proc)
    requires m.Valid() && d < 3 && InGrid(m.w.ax, c)
    ensures m.From(d, n, c) <= m.To(d, n, c) <= |m.At(d, n, c).live|
    ensures var a, i := m.w.ax.At(d), c.At(d);
            m.Packs(d, n, c) == Sent(m.At(d, n, c).live[m.From(d, n, c)..m.To(d, n, c)], d, SlabLo(a, i, n, m.w.cut), SlabHi(a, i, n, m.w.cut), SlabFlag(a, i, n), a.prd)
  {
    InRange(m, d, n, c);
    hide Machine.At;
    hide Machine.From;
    hide Machine.To;
    hide Sent;
    hide Axis.Edge;
  }

  /** No process of the ideal machine ends with more than it has room for. */
  ghost predicate Fits(w: World, nmax: Proc -> nat)
    requires w.Valid()
  {
    forall c | InGrid(w.ax, c) :: |w.Final(c)| <= Room(nmax(c))
  }

  /** Before swap n of dimension d every process has what it should have. */
  ghost predicate SoFar(m: Machine, d: nat, n: nat)
    requires m.Valid() && d < 3
  {
    forall c | InGrid(m.w.ax, c) :: Right(m, d, n, c)
  }

  ghost predicate Right(m: Machine, d: nat, n: nat, c: Proc)
    requires m.Valid() && d < 3 && InGrid(m.w.ax, c)
  {
    && m.At(d, n, c).live == Stage(m.w, d, n, c) && Room(m.At(d, n, c).nmax) == Room(m.nmax(c))
    && m.From(d, n, c) == First(m.w, d, n / 2, c) && m.To(d, n, c) == |m.w.Held(d, n / 2, c)|
  }

  lemma SamePacks(m: Machine, d: nat, n: nat, c: Proc)
    requires m.Valid() && d < 3 && InGrid(m.w.ax, c) && Right(m, d, n, c)
    ensures m.Packs(d, n, c) == Packs(m.w, d, n, c)
  {
    PacksIs(m, d, n, c);
    PacksPicked(m.w, d, n, c);
    StageIs(m.w, d, n, c);
    hide Machine.At;
    hide Machine.From;
    hide Machine.To;
    hide Machine.Packs;
    hide Rounds.Packs;
    hide Stage;
    hide First;
    hide World.Held;
    hide World.SendLeft;
    hide SwapAt;
    hide Sent;
    hide SlabLo;
    hide SlabHi;
    hide SlabFlag;
    var s, k := m.w.Held(d, n / 2, c), First(m.w, d, n / 2, c);
    assert m.At(d, n, c).live[k..|s|] == s[k..];
  }

  /** Held arrays only grow. */
  lemma {:induction false} HeldWithin(w: World, d: nat, h: nat, c: Proc)
    requires w.Valid() && d < 3 && InGrid(w.ax, c) && h <= w.Hops(d)
    ensures |w.Held(d, h, c)| <= |w.Final(c)|
    decreases 3 - d, w.Hops(d) - h
  {
    if h < w.Hops(d) {
      HeldWithin(w, d, h + 1, c);
    } else if d < 2 {
      HeldWithin(w, d + 1, 0, c);
    }
  }

  lemma StageWithin(w: World, d: nat, n: nat, c: Proc)
    requires w.Valid() && d < 3 && InGrid(w.ax, c) && n <= 2 * w.Hops(d)
    ensures |Stage(w, d, n, c)| <= |w.Final(c)|
  {
    StageIs(w, d, n, c);
    if n % 2 == 0 {
      HeldWithin(w, d, n / 2, c);
    } else {
      HeldWithin(w, d, n / 2 + 1, c);
      assert w.Held(d, n / 2 + 1, c) == w.Held(d, n / 2, c) + w.Arrivals(d, n / 2, c);
    }
  }

  lemma FirstIs(w: World, d: nat, h: nat, c: Proc)
    requires w.Valid() && d < 3 && InGrid(w.ax, c)
    ensures First(w, d, h, c) == if h == 0 then 0 else |w.Held(d, h - 1, c)|
  {
    hide World.Held;
  }

  lemma RightNext(m: Machine, d: nat, n: nat, c: Proc)
    requires m.Valid() && d < 3 && InGrid(m.w.ax, c) && n < 2 * m.w.Hops(d) && |m.w.Final(c)| <= Room(m.nmax(c))
    requires Right(m, d, n, c) && Right(m, d, n, Sender(m.w.ax, d, n, c))
    ensures Right(m, d, n + 1, c)
  {
    hide *;
    RightIs(m, d, n, c);
    LiveNext(m, d, n, c);
    RangeRight(m, d, n, c);
    RightFrom(m, d, n + 1, c);
  }

  lemma LiveNext(m: Machine, d: nat, n: nat, c: Proc)
    requires m.Valid() && d < 3 && InGrid(m.w.ax, c) && n < 2 * m.w.Hops(d) && |m.w.Final(c)| <= Room(m.nmax(c))
    requires Right(m, d, n, c) && Right(m, d, n, Sender(m.w.ax, d, n, c))
    ensures m.At(d, n + 1, c).live == Stage(m.w, d, n + 1, c) && Room(m.At(d, n + 1, c).nmax) == Room(m.nmax(c))
  {
    hide *;
    RightIs(m, d, n, c);
    SamePacks(m, d, n, Sender(m.w.ax, d, n, c));
    AtNext(m, d, n, c);
    StageNext(m.w, d, n, c);
    StageWithin(m.w, d, n + 1, c);
    PutAllKeeps(m.At(d, n, c), m.Packs(d, n, Sender(m.w.ax, d, n, c)), m.junk(c));
    RoomTwice(m.At(d, n, c).nmax);
  }

  lemma RangeRight(m: Machine, d: nat, n: nat, c: Proc)
    requires m.Valid() && d < 3 && InGrid(m.w.ax, c) && Right(m, d, n, c) && m.At(d, n + 1, c).live == Stage(m.w, d, n + 1, c)
    ensures m.From(d, n + 1, c) == First(m.w, d, (n + 1) / 2, c) && m.To(d, n + 1, c) == |m.w.Held(d, (n + 1) / 2, c)|
  {
    hide *;
    RightIs(m, d, n, c);
    FromTo(m, d, n + 1, c);
    if n % 2 == 0 {
      assert (n + 1) / 2 == n / 2;
    } else {
      assert (n + 1) / 2 - 1 == n / 2;
      StageIs(m.w, d, n + 1, c);
      FromTo(m, d, n, c);
      FirstIs(m.w, d, (n + 1) / 2, c);
    }
  }

  lemma RoomTwice(n: nat)
    ensures Room(Room(n)) == Room(n)
  {}

  lemma RightIs(m: Machine, d: nat, n: nat, c: Proc)
    requires m.Valid() && d < 3 && InGrid(m.w.ax, c) && Right(m, d, n, c)
    ensures m.w.Valid() && m.At(d, n, c).live == Stage(m.w, d, n, c) && Room(m.At(d, n, c).nmax) == Room(m.nmax(c))
    ensures m.From(d, n, c) == First(m.w, d, n / 2, c) && m.To(d, n, c) == |m.w.Held(d, n / 2, c)|
  {
    hide Machine.At;
    hide Machine.From;
    hide Machine.To;
    hide Stage;
  }

  lemma RightFrom(m: Machine, d: nat, n: nat, c: Proc)
    requires m.Valid() && d < 3 && InGrid(m.w.ax, c)
    requires m.At(d, n, c).live == Stage(m.w, d, n, c) && Room(m.At(d, n, c).nmax) == Room(m.nmax(c))
    requires m.From(d, n, c) == First(m.w, d, n / 2, c) && m.To(d, n, c) == |m.w.Held(d, n / 2, c)|
    ensures Right(m, d, n, c)
  {
    hide Machine.At;
    hide Machine.From;
    hide Machine.To;
    hide Stage;
  }

  /** What a dimension starts with is what the one before ended with. */
  lemma RightStart(m: Machine, d: nat, c: Proc)
    requires m.Valid() && d < 3 && InGrid(m.w.ax, c) && (d > 0 ==> Right(m, d - 1, 2 * m.w.Hops(d - 1), c))
    ensures Right(m, d, 0, c)
  {
    StageIs(m.w, d, 0, c);
    FromTo(m, d, 0, c);
    FirstIs(m.w, d, 0, c);
    if d > 0 {
      RightIs(m, d - 1, 2 * m.w.Hops(d - 1), c);
      StageEnd(m.w, d - 1, c);
    }
    StartIs(m, d, c);
    hide *;
    RightFrom(m, d, 0, c);
  }

  lemma StartIs(m: Machine, d: nat, c: Proc)
    requires m.Valid() && d < 3 && InGrid(m.w.ax, c)
    ensures m.w.Valid()
    ensures m.At(d, 0, c) == if d == 0 then Store(m.w.own(c), m.nmax(c)) else m.At(d - 1, 2 * m.w.Hops(d - 1), c)
    ensures m.w.Held(d, 0, c) == if d == 0 then m.w.own(c) else m.w.Held(d - 1, m.w.Hops(d - 1), c)
  {
    hide World.Hops;
  }

  /** While every process has room, every process has what it should have. */
  lemma {:induction false} Kept(m: Machine, d: nat, n: nat)
    requires m.Valid() && d < 3 && n <= 2 * m.w.Hops(d) && Fits(m.w, m.nmax)
    ensures SoFar(m, d, n)
    decreases d, n
  {
    hide Right;
    hide World.Hops;
    hide World.Final;
    if n > 0 {
      Kept(m, d, n - 1);
      forall c | InGrid(m.w.ax, c) ensures Right(m, d, n, c) { RightNext(m, d, n - 1, c); }
    } else {
      if d > 0 { Kept(m, d - 1, 2 * m.w.Hops(d - 1)); }
      forall c | InGrid(m.w.ax, c) ensures Right(m, d, 0, c) { RightStart(m, d, c); }
    }
  }

  lemma FinalRight(m: Machine, c: Proc)
    requires m.Valid() && InGrid(m.w.ax, c) && SoFar(m, 2, 2 * m.w.Hops(2))
    ensures m.Final(c).live == m.w.Final(c)
  {
    RightIs(m, 2, 2 * m.w.Hops(2), c);
    StageEnd(m.w, 2, c);
  }

  /** Arrays that have been replaced in use begin with what memory held, ever after. */
  ghost predicate Begun(m: Machine, s: Store<Copy>, c: Proc) {
    Room(s.nmax) == Room(m.nmax(c)) || exists full :: Lost(s, m.junk(c), full)
  }

  lemma {:induction false} BegunAt(m: Machine, d: nat, n: nat, c: Proc)
    requires m.Valid() && d < 3 && InGrid(m.w.ax, c)
    ensures Begun(m, m.At(d, n, c), c)
    decreases d, n
  {
    hide *;
    if n > 0 {
      BegunAt(m, d, n - 1, c);
      AtNext(m, d, n - 1, c);
      BegunNext(m, m.At(d, n - 1, c), m.Packs(d, n - 1, Sender(m.w.ax, d, n - 1, c)), c);
    } else {
      StartIs(m, d, c);
      if d > 0 { BegunAt(m, d - 1, 2 * m.w.Hops(d - 1), c); } else { BegunFirst(m, c); }
    }
  }

  lemma BegunFirst(m: Machine, c: Proc)
    requires m.Valid() && InGrid(m.w.ax, c)
    ensures Begun(m, Store(m.w.own(c), m.nmax(c)), c)
  {}

  lemma BegunNext(m: Machine, s: Store<Copy>, vs: seq<Copy>, c: Proc)
    requires s.Valid() && Begun(m, s, c)
    ensures Begun(m, PutAll(s, vs, m.junk(c)), c)
  {
    if full :| Lost(s, m.junk(c), full) {
      StaysLost(s, vs, m.junk(c), full);
    } else {
      PutAllKeeps(s, vs, m.junk(c));
      RoomTwice(s.nmax);
    }
  }

  /** Borders leaves every process with what it should have, whatever fresh memory holds,
      if and only if no process gets more entries than its arrays have room for. */
  lemma BordersKept(w: World, nmax: Proc -> nat)
    requires w.Valid() && forall c | InGrid(w.ax, c) :: |w.own(c)| <= nmax(c)
    ensures (forall junk, c | InGrid(w.ax, c) :: Machine(w, nmax, junk).Final(c).live == w.Final(c)) <==> Fits(w, nmax)
  {
    if Fits(w, nmax) {
      forall junk, c | InGrid(w.ax, c) ensures Machine(w, nmax, junk).Final(c).live == w.Final(c) {
        Kept(Machine(w, nmax, junk), 2, 2 * w.Hops(2));
        FinalRight(Machine(w, nmax, junk), c);
      }
    } else {
      var c :| InGrid(w.ax, c) && |w.Final(c)| > Room(nmax(c));
      var m := Overwritten(w, nmax, c);
      assert m == Machine(w, nmax, m.junk);
    }
  }

  /** A run that goes wrong. */
  lemma Overwritten(w: World, nmax: Proc -> nat, c: Proc) returns (m: Machine)
    requires w.Valid() && (forall c | InGrid(w.ax, c) :: |w.own(c)| <= nmax(c)) && InGrid(w.ax, c) && |w.Final(c)| > Room(nmax(c))
    ensures m.Valid() && m.w == w && m.nmax == nmax && m.Final(c).live != w.Final(c)
  {
    var first := w.Final(c)[0];
    m := Machine(w, nmax, (_: Proc) => (_, _) => first.(x := first.x.(x := first.x.x + 1.0)));
    BegunAt(m, 2, 2 * w.Hops(2), c);
    hide Machine.At;
    hide World.Held;
    hide World.Hops;
    var s := m.Final(c);
    if full :| Lost(s, m.junk(c), full) {
      assert s.live[0] != first;
    } else {
      assert |s.live| <= s.nmax <= Room(nmax(c));
    }
  }

  lemma {:induction false} TagCount(s: seq<Copy>, t: Tag)
    ensures multiset(TagsOf(s))[t] == Count(s, t)
  {
    if s != [] {
      var n := |s| - 1;
      TagCount(s[..n], t);
      assert TagsOf(s) == TagsOf(s[..n]) + [s[n].tag];
    }
  }

  lemma SameLength(a: seq<Copy>, b: seq<Copy>)
    requires forall t :: Count(a, t) == Count(b, t)
    ensures |a| == |b|
  {
    forall t ensures multiset(TagsOf(a))[t] == multiset(TagsOf(b))[t] {
      TagCount(a, t);
      TagCount(b, t);
    }
    assert multiset(TagsOf(a)) == multiset(TagsOf(b));
    assert |multiset(TagsOf(a))| == |TagsOf(a)| && |multiset(TagsOf(b))| == |TagsOf(b)|;
  }

  lemma {:induction false} Unused(ids: set<int>) returns (id: int)
    ensures forall x | x in ids :: x < id
    decreases |ids|
  {
    if x :| x in ids {
      var y := Unused(ids - {x});
      id := if x < y then y else x + 1;
      assert forall z | z in ids :: z == x || z in ids - {x};
    } else {
      id := 0;
    }
  }

  /** The ghosts of process c are complete: every image of its halo once, and no other. */
  ghost predicate Complete(w: World, base: map<int, Vec>, c: Proc, live: seq<Copy>)
    requires w.Valid() && InGrid(w.ax, c)
  {
    forall t :: Count(live, t) == Once(InHalo(w, base, c, t))
  }

  /** Ghost completeness, whatever fresh memory holds, if and only if no process gets more
      entries than its arrays have room for. */
  lemma GhostsComplete(w: World, base: map<int, Vec>, nmax: Proc -> nat)
    requires w.Valid() && Owned(w, base) && forall c | InGrid(w.ax, c) :: |w.own(c)| <= nmax(c)
    ensures (forall junk, c | InGrid(w.ax, c) :: Complete(w, base, c, Machine(w, nmax, junk).Final(c).live)) <==> Fits(w, nmax)
  {
    hide Fits;
    hide Owned;
    hide Complete;
    hide Machine.Final;
    hide World.Final;
    if Fits(w, nmax) {
      forall junk, c | InGrid(w.ax, c) ensures Complete(w, base, c, Machine(w, nmax, junk).Final(c).live) {
        BordersKept(w, nmax);
        FinalComplete(w, base, c);
      }
    } else {
      var c := TooMany(w, nmax);
      var m := Incomplete(w, base, nmax, c);
      assert m == Machine(w, nmax, m.junk);
    }
  }

  lemma TooMany(w: World, nmax: Proc -> nat) returns (c: Proc)
    requires w.Valid() && !Fits(w, nmax)
    ensures InGrid(w.ax, c) && |w.Final(c)| > Room(nmax(c))
  {
    c :| InGrid(w.ax, c) && |w.Final(c)| > Room(nmax(c));
  }

  lemma FinalComplete(w: World, base: map<int, Vec>, c: Proc)
    requires w.Valid() && Owned(w, base) && InGrid(w.ax, c)
    ensures Complete(w, base, c, w.Final(c))
  {
    hide InHalo;
    hide World.Final;
    hide Owned;
    forall t ensures Count(w.Final(c), t) == Once(InHalo(w, base, c, t)) { BordersExact(w, base, c, t); }
  }

  /** Fresh memory that holds an atom there is none of. */
  lemma Incomplete(w: World, base: map<int, Vec>, nmax: Proc -> nat, c: Proc) returns (m: Machine)
    requires w.Valid() && Owned(w, base) && (forall c | InGrid(w.ax, c) :: |w.own(c)| <= nmax(c)) && InGrid(w.ax, c) && |w.Final(c)| > Room(nmax(c))
    ensures m.Valid() && m.w == w && m.nmax == nmax && !Complete(w, base, c, m.Final(c).live)
  {
    var id := Unused(base.Keys);
    var junk := Copy(V3(0.0, 0.0, 0.0), Tag(id, V3(0, 0, 0)));
    m := Machine(w, nmax, (_: Proc) => (_, _) => junk);
    BegunAt(m, 2, 2 * w.Hops(2), c);
    FinalComplete(w, base, c);
    hide Machine.At;
    hide World.Held;
    hide World.Hops;
    hide Owned;
    var s := m.Final(c);
    assert id !in base;
    assert Once(InHalo(w, base, c, junk.tag)) == 0;
    hide InHalo;
    if full :| Lost(s, m.junk(c), full) {
      assert s.live[0] == junk;
      FirstCounts(s.live);
    } else {
      assert |s.live| <= s.nmax <= Room(nmax(c));
      if Complete(w, base, c, s.live) { SameLength(s.live, w.Final(c)); }
    }
  }

  lemma FirstCounts(s: seq<Copy>)
    requires s != []
    ensures Count(s, s[0].tag) > 0
  {
    TagCount(s, s[0].tag);
    assert TagsOf(s)[0] in multiset(TagsOf(s));
  }

  /** What process c records of swap n. */
  ghost function EntryOf(m: Machine, c: Proc, d: nat, n: nat): Entry
    requires m.Valid() && d < 3 && InGrid(m.w.ax, c)
  {
    InRange(m, d, n, c);
    var a, i, live := m.w.ax.At(d), c.At(d), m.At(d, n, c).live;
    Entry(Picked(live, m.From(d, n, c), m.To(d, n, c), d, SlabLo(a, i, n, m.w.cut), SlabHi(a, i, n, m.w.cut)), |live|,
          |m.Packs(d, n, Sender(m.w.ax, d, n, c))|, m.Packs(d, n, c))
  }

  ghost predicate WroteAt(m: Machine, c: Proc, d: nat, n: nat, log: seq<Entry>)
    requires m.Valid() && d < 3 && InGrid(m.w.ax, c)
  {
    Start(m.w, d) + n < |log| && log[Start(m.w, d) + n] == EntryOf(m, c, d, n)
  }

  /** The record of c has its first n swaps of dimension d. */
  ghost predicate Wrote(m: Machine, c: Proc, d: nat, n: nat, log: seq<Entry>)
    requires m.Valid() && d < 3 && InGrid(m.w.ax, c)
  {
    Start(m.w, d) + n <= |log| && forall k: nat | k < n :: WroteAt(m, c, d, k, log)
  }

  lemma WroteKept(m: Machine, c: Proc, d: nat, n: nat, l: seq<Entry>, l': seq<Entry>)
    requires m.Valid() && d < 3 && InGrid(m.w.ax, c) && Wrote(m, c, d, n, l) && l <= l'
    ensures Wrote(m, c, d, n, l')
  {
    hide Start;
    hide EntryOf;
    forall k: nat | k < n ensures WroteAt(m, c, d, k, l') { assert WroteAt(m, c, d, k, l); }
  }

  lemma WroteMore(m: Machine, c: Proc, d: nat, n: nat, l: seq<Entry>)
    requires m.Valid() && d < 3 && InGrid(m.w.ax, c) && Wrote(m, c, d, n, l) && |l| == Start(m.w, d) + n
    ensures Wrote(m, c, d, n + 1, l + [EntryOf(m, c, d, n)])
  {
    WroteKept(m, c, d, n, l, l + [EntryOf(m, c, d, n)]);
    hide Start;
    hide EntryOf;
    forall k: nat | k < n + 1 ensures WroteAt(m, c, d, k, l + [EntryOf(m, c, d, n)]) {}
  }

  lemma EntryRight(m: Machine, c: Proc, d: nat, n: nat)
    requires m.Valid() && d < 3 && InGrid(m.w.ax, c) && SoFar(m, d, n)
    ensures EntryOf(m, c, d, n) == EntryAt(m.w, c, d, n)
  {
    var q := Sender(m.w.ax, d, n, c);
    assert Right(m, d, n, c) && Right(m, d, n, q);
    SamePacks(m, d, n, c);
    SamePacks(m, d, n, q);
    RightIs(m, d, n, c);
    PacksPicked(m.w, d, n, c);
    StageIs(m.w, d, n, c);
    InRange(m, d, n, c);
    hide Machine.At;
    hide Machine.From;
    hide Machine.To;
    hide Machine.Packs;
    hide Rounds.Packs;
    hide Stage;
    hide First;
    hide World.Held;
    hide World.SendLeft;
    hide SwapAt;
    hide Sent;
    hide Picked;
    hide SlabLo;
    hide SlabHi;
    hide SlabFlag;
    hide Right;
    hide SoFar;
    var s, k := m.w.Held(d, n / 2, c), First(m.w, d, n / 2, c);
    PickedPrefix(s, m.At(d, n, c).live, k, |s|, d, SlabLo(m.w.ax.At(d), c.At(d), n, m.w.cut), SlabHi(m.w.ax.At(d), c.At(d), n, m.w.cut));
  }

  /** While every process has room, every record is the right one. */
  lemma WroteRight(m: Machine, c: Proc, d: nat, log: seq<Entry>)
    requires m.Valid() && d < 3 && InGrid(m.w.ax, c) && Fits(m.w, m.nmax) && Wrote(m, c, d, 2 * m.w.Hops(d), log)
    ensures Logged(m.w, c, d, 2 * m.w.Hops(d), log)
  {
    hide EntryOf;
    hide EntryAt;
    hide Start;
    hide World.Hops;
    hide Fits;
    hide SoFar;
    forall k: nat | k < 2 * m.w.Hops(d) ensures LoggedAt(m.w, c, d, k, log) {
      assert WroteAt(m, c, d, k, log);
      Kept(m, d, k);
      EntryRight(m, c, d, k);
    }
  }
}
