/** communicate and reverse_communicate as each process runs them, in place on its
    arrays, against what the whole machine does. */
module Forwarding {
  import opened Vec3
  import opened Grid
  import opened Borders
  import opened Swaps
  import opened Recording
  import opened Reverse
  import opened Rounds

  /** What process c has recorded is its part of plan p. */
  ghost predicate Keeps(p: Plan, c: Proc, log: seq<Entry>) {
    && p.Recorded() && InGrid(p.ax, c) && |log| == |p.swaps|
    && forall s: nat | s < |log| :: KeepsAt(p, c, log, s)
  }

  ghost predicate KeepsAt(p: Plan, c: Proc, log: seq<Entry>, s: nat)
    requires p.Valid() && InGrid(p.ax, c) && s < |p.swaps| && s < |log|
  {
    && log[s].sendlist == p.List(s, c) && log[s].firstrecv == p.swaps[s].first(c)
    && log[s].recvnum == |p.List(s, p.From(s, c))|
  }

  /** What the process that c receives from packs in swap s of communicate. */
  ghost function Incoming(p: Plan, x: Proc -> seq<Vec>, s: nat, c: Proc): seq<Vec>
    requires p.Recorded() && s < |p.swaps| && InGrid(p.ax, c)
    requires forall e | InGrid(p.ax, e) :: |x(e)| == |p.Tags(e)|
  {
    hide *;
    GoodAt(p, s, c);
    var q := p.From(s, c);
    Packed(Communicated(p, x, s, q), p.List(s, q), p.swaps[s].d, Mul(p.Flag(s, q), p.ax.At(p.swaps[s].d).prd))
  }

  /** Work items of atom_pack_comm. */
  method PackComm(x: array<Vec>, list: seq<nat>, d: nat, shift: real) returns (buf: array<Vec>)
    requires d < 3 && Below(list, x.Length)
    ensures fresh(buf) && buf[..] == Packed(x[..], list, d, shift)
  {
    buf := new Vec[|list|];
    forall j | 0 <= j < |list| {
      buf[j] := x[list[j]].Set(d, x[list[j]].At(d) + shift);
    }
  }

  /** Work items of atom_unpack_comm. */
  method UnpackComm(x: array<Vec>, buf: array<Vec>, first: nat)
    requires first + buf.Length <= x.Length && x != buf
    modifies x
    ensures x[..] == Overwritten(old(x[..]), first, buf[..])
  {
    forall i | 0 <= i < buf.Length {
      x[i + first] := buf[i];
    }
  }

  /** Work items of atom_comm_self: no buffer is needed, as what is read lies before
      what is written. */
  method CommSelf(x: array<Vec>, list: seq<nat>, d: nat, shift: real, first: nat)
    requires d < 3 && Below(list, first) && first + |list| <= x.Length
    modifies x
    ensures Below(list, x.Length) && x[..] == Overwritten(old(x[..]), first, Packed(old(x[..]), list, d, shift))
  {
    for j := 0 to |list|
      invariant forall i | 0 <= i < x.Length && !(first <= i < first + j) :: x[i] == old(x[i])
      invariant forall k | 0 <= k < j :: x[first + k] == old(x[list[k]]).Set(d, old(x[list[k]]).At(d) + shift)
    {
      x[j + first] := x[list[j]].Set(d, x[list[j]].At(d) + shift);
    }
    assert x[..] == Overwritten(old(x[..]), first, Packed(old(x[..]), list, d, shift));
  }

  /** Atom::pack_reverse. */
  method PackReverse(f: array<Vec>, n: nat, first: nat) returns (buf: seq<Vec>)
    requires first + n <= f.Length
    ensures buf == f[first..first + n]
  {
    buf := [];
    for i := 0 to n
      invariant buf == f[first..first + i]
    {
      buf := buf + [f[first + i]];
    }
  }

  /** Atom::unpack_reverse. */
  method UnpackReverse(f: array<Vec>, list: seq<nat>, buf: seq<Vec>)
    requires |list| == |buf| && Below(list, f.Length)
    modifies f
    ensures f[..] == Added(old(f[..]), list, buf, |buf|)
  {
    for i := 0 to |list|
      invariant f[..] == Added(old(f[..]), list, buf, i)
    {
      var j := list[i];
      f[j] := Reverse.Plus(f[j], buf[i]);
    }
  }

  /** Swap s as process c sees it: what it has, what it sends and what arrives. */
  lemma SwapParts(p: Plan, x: Proc -> seq<Vec>, s: nat, c: Proc, log: seq<Entry>)
    requires Keeps(p, c, log) && s < |log|
    requires forall e | InGrid(p.ax, e) :: |x(e)| == |p.Tags(e)|
    ensures p.Recorded() && p.Valid() && p.swaps[s].d < 3
    ensures log[s].sendlist == p.List(s, c) && log[s].firstrecv == p.Size(s, c)
    ensures Below(log[s].sendlist, p.Size(s, c)) && Below(log[s].sendlist, |p.Tags(c)|)
    ensures p.Size(s, c) + |Incoming(p, x, s, c)| <= |p.Tags(c)|
    ensures Communicated(p, x, s + 1, c) == Overwritten(Communicated(p, x, s, c), p.Size(s, c), Incoming(p, x, s, c))
    ensures p.From(s, c) == c ==>
            Incoming(p, x, s, c) == Packed(Communicated(p, x, s, c), log[s].sendlist, p.swaps[s].d, Mul(p.Flag(s, c), p.ax.At(p.swaps[s].d).prd))
  {
    assert KeepsAt(p, c, log, s);
    hide Keeps;
    hide Plan.Recorded;
    hide Plan.Valid;
    hide Plan.From;
    hide Plan.List;
    hide Plan.Size;
    hide Plan.Tags;
    hide Plan.Flag;
    hide Packed;
    RecordedValid(p);
    GoodAt(p, s, c);
    GoodAt(p, s, To(p, s, c));
    var y, z, buf := CommunicatedStep(p, x, s, c);
    assert Incoming(p, x, s, c) == buf;
    BelowSize(p, s, c);
  }

  lemma BelowSize(p: Plan, s: nat, c: Proc)
    requires p.Recorded() && s < |p.swaps| && InGrid(p.ax, c)
    ensures p.Valid() && Below(p.List(s, c), p.Size(s, c))
  {
    RecordedValid(p);
    GoodAt(p, s, To(p, s, c));
    hide Plan.Recorded;
    hide Plan.List;
    hide Plan.Size;
    hide Plan.Tags;
    hide Plan.Copied;
    hide Plan.From;
  }

  /** One swap of communicate. recv is what arrives, unless the process sends to
      itself. */
  method Forward(x: array<Vec>, e: Entry, d: nat, shift: real, self: bool, recv: seq<Vec>) returns (ghost sent: seq<Vec>)
    requires d < 3 && Below(e.sendlist, x.Length) && Below(e.sendlist, e.firstrecv) && e.firstrecv + |recv| <= x.Length
    requires self ==> recv == Packed(x[..], e.sendlist, d, shift)
    modifies x
    ensures x[..] == Overwritten(old(x[..]), e.firstrecv, recv)
    ensures sent == Packed(old(x[..]), e.sendlist, d, shift)
  {
    sent := Packed(x[..], e.sendlist, d, shift);
    if self {
      CommSelf(x, e.sendlist, d, shift, e.firstrecv);
    } else {
      var send := PackComm(x, e.sendlist, d, shift);
      sent := send[..];
      var buf := new Vec[|recv|](i requires 0 <= i < |recv| => recv[i]);
      assert buf[..] == recv;
      UnpackComm(x, buf, e.firstrecv);
    }
  }

  lemma SenderParts(p: Plan, s: nat, c: Proc)
    requires p.Recorded() && s < |p.swaps| && InGrid(p.ax, c)
    ensures p.Valid() && p.swaps[s].d < 3
    ensures To(p, s, c) == if p.swaps[s].left then LeftOf(p.ax, p.swaps[s].d, c) else RightOf(p.ax, p.swaps[s].d, c)
    ensures p.Flag(s, c) == if p.swaps[s].left then p.ax.At(p.swaps[s].d).LeftFlag(c.At(p.swaps[s].d)) else p.ax.At(p.swaps[s].d).RightFlag(c.At(p.swaps[s].d))
    ensures To(p, s, c) == c <==> p.From(s, c) == c
  {
    hide Plan.Recorded;
    hide Plan.Valid;
    hide InGrid;
    RecordedValid(p);
    ToIs(p, s, c);
  }

  lemma KeepsParts(p: Plan, c: Proc, log: seq<Entry>, s: nat)
    requires Keeps(p, c, log) && s < |log|
    ensures p.Recorded() && p.Valid() && InGrid(p.ax, c) && s < |p.swaps| && KeepsAt(p, c, log, s) && log[s].sendlist == p.List(s, c)
    ensures log[s].firstrecv == p.swaps[s].first(c) && log[s].recvnum == |p.List(s, p.From(s, c))|
  {
    assert KeepsAt(p, c, log, s);
    hide Plan.Recorded;
    hide KeepsAt;
    RecordedValid(p);
    KeepsAtParts(p, c, log, s);
  }

  lemma KeepsStart(p: Plan, c: Proc, log: seq<Entry>)
    requires Keeps(p, c, log)
    ensures p.Recorded() && p.Valid() && InGrid(p.ax, c) && |log| == |p.swaps|
  {
    hide Plan.Recorded;
    hide KeepsAt;
    RecordedValid(p);
  }

  lemma KeepsAtParts(p: Plan, c: Proc, log: seq<Entry>, s: nat)
    requires p.Valid() && InGrid(p.ax, c) && s < |p.swaps| && s < |log| && KeepsAt(p, c, log, s)
    ensures log[s].sendlist == p.List(s, c) && log[s].firstrecv == p.swaps[s].first(c)
    ensures log[s].recvnum == |p.List(s, p.From(s, c))|
  {}

  lemma IncomingIs(p: Plan, x: Proc -> seq<Vec>, s: nat, c: Proc)
    requires p.Recorded() && s < |p.swaps| && InGrid(p.ax, c)
    requires forall e | InGrid(p.ax, e) :: |x(e)| == |p.Tags(e)|
    ensures p.Valid() && p.swaps[s].d < 3
    ensures var q := p.From(s, c);
            Below(p.List(s, q), |p.Tags(q)|) &&
            Incoming(p, x, s, c) == Packed(Communicated(p, x, s, q), p.List(s, q), p.swaps[s].d, Mul(p.Flag(s, q), p.ax.At(p.swaps[s].d).prd))
  {
    hide Plan.Recorded;
    hide Plan.Valid;
    hide Plan.From;
    hide Plan.List;
    hide Plan.Tags;
    hide Plan.Flag;
    hide Packed;
    GoodAt(p, s, c);
  }

  /** What c sends in swap s is what its receiver takes in. */
  lemma SwapSends(p: Plan, x: Proc -> seq<Vec>, s: nat, c: Proc, log: seq<Entry>)
    requires Keeps(p, c, log) && s < |log|
    requires forall e | InGrid(p.ax, e) :: |x(e)| == |p.Tags(e)|
    ensures p.Recorded() && p.Valid() && p.swaps[s].d < 3 && InGrid(p.ax, To(p, s, c)) && Below(log[s].sendlist, |p.Tags(c)|)
    ensures Incoming(p, x, s, To(p, s, c)) ==
            Packed(Communicated(p, x, s, c), log[s].sendlist, p.swaps[s].d, Mul(p.Flag(s, c), p.ax.At(p.swaps[s].d).prd))
  {
    hide *;
    KeepsParts(p, c, log, s);
    IncomingIs(p, x, s, To(p, s, c));
  }

  /** Comm::communicate of one process, given that the others send what they would:
      its positions end as the whole machine's replay leaves them, and each buffer it
      has sent is what the receiver relies on. */
  method Communicate(ghost p: Plan, ax: V3<Axis>, me: Proc, dim: seq<nat>, toLeft: seq<bool>, log: seq<Entry>, x: array<Vec>,
                     inbox: nat -> seq<Vec>, ghost x0: Proc -> seq<Vec>) returns (ghost sent: seq<seq<Vec>>)
    requires Keeps(p, me, log) && p.ax == ax && |dim| == |toLeft| == |log|
    requires forall s | 0 <= s < |log| :: dim[s] == p.swaps[s].d && toLeft[s] == p.swaps[s].left
    requires forall e | InGrid(ax, e) :: |x0(e)| == |p.Tags(e)|
    requires x[..] == x0(me)
    requires forall s: nat | s < |log| :: inbox(s) == Incoming(p, x0, s, me)
    modifies x
    ensures x[..] == Communicated(p, x0, |log|, me)
    ensures |sent| == |log| && forall s: nat | s < |log| :: sent[s] == Incoming(p, x0, s, To(p, s, me))
  {
    hide *;
    KeepsStart(p, me, log);
    var _ := CommunicatedStart(p, x0, 0, me);
    sent := [];
    for iswap := 0 to |log|
      invariant x[..] == Communicated(p, x0, iswap, me)
      invariant |sent| == iswap && forall s: nat | s < iswap :: sent[s] == Incoming(p, x0, s, To(p, s, me))
    {
      SwapParts(p, x0, iswap, me, log);
      SwapSends(p, x0, iswap, me, log);
      SenderParts(p, iswap, me);
      var d, e := dim[iswap], log[iswap];
      var flag := if toLeft[iswap] then ax.At(d).LeftFlag(me.At(d)) else ax.At(d).RightFlag(me.At(d));
      var sendproc := if toLeft[iswap] then LeftOf(ax, d, me) else RightOf(ax, d, me);
      var buf := Forward(x, e, d, Mul(flag, ax.At(d).prd), sendproc == me, inbox(iswap));
      sent := sent + [buf];
    }
  }

  /** What the process that c sends to packs in swap s of reverse_communicate. */
  ghost function Returning(p: Plan, f: Proc -> seq<Vec>, s: nat, c: Proc): seq<Vec>
    requires p.Recorded() && s < |p.swaps| && InGrid(p.ax, c)
    requires forall e | InGrid(p.ax, e) :: |f(e)| == |p.Tags(e)|
  {
    hide *;
    RecordedValid(p);
    var e := To(p, s, c);
    GoodAt(p, s, e);
    Reversed(p, f, s + 1, e)[p.swaps[s].first(e)..p.swaps[s].first(e) + |p.List(s, c)|]
  }

  lemma ReturningIs(p: Plan, f: Proc -> seq<Vec>, s: nat, c: Proc)
    requires p.Recorded() && s < |p.swaps| && InGrid(p.ax, c)
    requires forall e | InGrid(p.ax, e) :: |f(e)| == |p.Tags(e)|
    ensures p.Valid() && Below(p.List(s, c), |p.Tags(c)|)
    ensures |Returning(p, f, s, c)| == |p.List(s, c)|
    ensures Reversed(p, f, s, c) == Added(Reversed(p, f, s + 1, c), p.List(s, c), Returning(p, f, s, c), |p.List(s, c)|)
  {
    hide Plan.Recorded;
    hide Plan.Valid;
    hide Plan.From;
    hide Plan.List;
    hide Plan.Tags;
    hide Plan.Size;
    hide Added;
    RecordedValid(p);
    var e := To(p, s, c);
    GoodAt(p, s, e);
    BelowLength(p, s, c);
  }

  /** What c packs in swap s of reverse_communicate is what its sender adds. */
  lemma GivesBack(p: Plan, f: Proc -> seq<Vec>, s: nat, c: Proc, log: seq<Entry>)
    requires Keeps(p, c, log) && s < |log|
    requires forall e | InGrid(p.ax, e) :: |f(e)| == |p.Tags(e)|
    ensures p.Recorded() && p.Valid() && s < |p.swaps|
    ensures log[s].firstrecv + log[s].recvnum <= |p.Tags(c)|
    ensures Returning(p, f, s, p.From(s, c)) == Reversed(p, f, s + 1, c)[log[s].firstrecv..log[s].firstrecv + log[s].recvnum]
  {
    hide *;
    KeepsParts(p, c, log, s);
    GoodAt(p, s, c);
    ToFrom(p, s, c);
    ReturningFrom(p, f, s, p.From(s, c), c);
  }

  lemma ReturningFrom(p: Plan, f: Proc -> seq<Vec>, s: nat, q: Proc, e: Proc)
    requires p.Recorded() && p.Valid() && s < |p.swaps| && InGrid(p.ax, q) && InGrid(p.ax, e) && To(p, s, q) == e
    requires forall e | InGrid(p.ax, e) :: |f(e)| == |p.Tags(e)|
    ensures p.swaps[s].first(e) + |p.List(s, q)| <= |p.Tags(e)|
    ensures Returning(p, f, s, q) == Reversed(p, f, s + 1, e)[p.swaps[s].first(e)..p.swaps[s].first(e) + |p.List(s, q)|]
  {
    hide Plan.Recorded;
    hide Plan.Valid;
    hide Plan.From;
    hide Plan.List;
    hide Plan.Tags;
    hide Plan.Size;
    hide Plan.Good;
    hide Reversed;
    hide To;
    GoodAt(p, s, e);
  }

  lemma ToFrom(p: Plan, s: nat, c: Proc)
    requires p.Valid() && s < |p.swaps| && InGrid(p.ax, c)
    ensures To(p, s, p.From(s, c)) == c
  {
    hide Axis.Valid;
  }

  /** Comm::reverse_communicate of one process, given that the others send what they
      would. */
  method ReverseCommunicate(ghost p: Plan, ax: V3<Axis>, me: Proc, dim: seq<nat>, toLeft: seq<bool>, log: seq<Entry>, f: array<Vec>,
                            inbox: nat -> seq<Vec>, ghost f0: Proc -> seq<Vec>) returns (ghost sent: map<nat, seq<Vec>>)
    requires Keeps(p, me, log) && p.ax == ax && |dim| == |toLeft| == |log|
    requires forall s | 0 <= s < |log| :: dim[s] == p.swaps[s].d && toLeft[s] == p.swaps[s].left
    requires forall e | InGrid(ax, e) :: |f0(e)| == |p.Tags(e)|
    requires f[..] == f0(me)
    requires forall s: nat | s < |log| :: inbox(s) == Returning(p, f0, s, me)
    modifies f
    ensures f[..] == Reversed(p, f0, 0, me)
    ensures forall s: nat | s < |log| :: s in sent && sent[s] == Returning(p, f0, s, p.From(s, me))
  {
    hide *;
    KeepsStart(p, me, log);
    ReversedStart(p, f0, me);
    sent := map[];
    for iswap := |log| downto 0
      invariant f[..] == Reversed(p, f0, iswap, me)
      invariant forall s: nat | iswap <= s < |log| :: s in sent && sent[s] == Returning(p, f0, s, p.From(s, me))
    {
      KeepsParts(p, me, log, iswap);
      GivesBack(p, f0, iswap, me, log);
      ReturningIs(p, f0, iswap, me);
      SenderParts(p, iswap, me);
      var d, e := dim[iswap], log[iswap];
      var buf := PackReverse(f, e.recvnum, e.firstrecv);
      sent := sent[iswap := buf];
      var sendproc := if toLeft[iswap] then LeftOf(ax, d, me) else RightOf(ax, d, me);
      if sendproc != me { buf := inbox(iswap); }
      UnpackReverse(f, e.sendlist, buf);
    }
  }

  lemma ReversedStart(p: Plan, f: Proc -> seq<Vec>, c: Proc)
    requires p.Recorded() && InGrid(p.ax, c) && forall e | InGrid(p.ax, e) :: |f(e)| == |p.Tags(e)|
    ensures Reversed(p, f, |p.swaps|, c) == f(c)
  {}

  /** Which swap of which dimension the s-th one is. */
  lemma {:induction false} Locate(w: World, d: nat, s: nat) returns (e: nat, n: nat)
    requires w.Valid() && d <= 3 && s < Start(w, d)
    ensures e < d && n < 2 * w.Hops(e) && s == Start(w, e) + n
  {
    hide World.Hops;
    if s < Start(w, d - 1) {
      e, n := Locate(w, d - 1, s);
    } else {
      e, n := d - 1, s - Start(w, d - 1);
    }
  }

  /** What borders has recorded is what communicate and reverse_communicate need. */
  lemma LogKeeps(w: World, c: Proc, log: seq<Entry>)
    requires w.Valid() && InGrid(w.ax, c) && |log| == Start(w, 3)
    requires forall d: nat | d < 3 :: Logged(w, c, d, 2 * w.Hops(d), log)
    ensures Keeps(PlanOf(w), c, log)
  {
    hide *;
    PlanOfParts(w);
    var p := PlanOf(w);
    forall s: nat | s < |log| ensures KeepsAt(p, c, log, s) {
      var d, n := Locate(w, 3, s);
      EntryKeeps(w, c, log, d, n);
    }
    KeepsFrom(p, c, log);
  }

  lemma PlanOfParts(w: World)
    requires w.Valid()
    ensures PlanOf(w).Recorded() && PlanOf(w).Valid() && PlanOf(w).ax == w.ax && |PlanOf(w).swaps| == Start(w, 3)
  {
    assert PlanOf(w) == PlanAt(w, 2, w.Hops(2)) && PlanOf(w).swaps == Made(w, 2, w.Hops(2));
    assert Start(w, 3) == Start(w, 2) + 2 * w.Hops(2);
    hide *;
    MadeRecorded(w, 2, w.Hops(2));
    MadeLength(w, 2, w.Hops(2));
    RecordedValid(PlanOf(w));
    PlanShape(w, 2, w.Hops(2));
  }

  lemma KeepsFrom(p: Plan, c: Proc, log: seq<Entry>)
    requires p.Recorded() && p.Valid() && InGrid(p.ax, c) && |log| == |p.swaps|
    requires forall s: nat | s < |log| :: KeepsAt(p, c, log, s)
    ensures Keeps(p, c, log)
  {
    hide Plan.Recorded;
    hide Plan.Valid;
    hide KeepsAt;
  }

  lemma EntryKeeps(w: World, c: Proc, log: seq<Entry>, d: nat, n: nat)
    requires w.Valid() && InGrid(w.ax, c) && d < 3 && n < 2 * w.Hops(d) && Logged(w, c, d, 2 * w.Hops(d), log)
    requires PlanOf(w).Valid() && PlanOf(w).ax == w.ax && Start(w, d) + n < |PlanOf(w).swaps| && Start(w, d) + n < |log|
    ensures KeepsAt(PlanOf(w), c, log, Start(w, d) + n)
  {
    assert LoggedAt(w, c, d, n, log);
    MadeAt(w, 2, w.Hops(2), d, n);
    var p, s := PlanOf(w), Start(w, d) + n;
    assert p.swaps[s] == SwapAt(w, d, n);
    var q := Sender(w.ax, d, n, c);
    hide Logged;
    hide World.Valid;
    hide World.Hops;
    hide Start;
    hide Made;
    SentTags(w, d, n / 2, q, n % 2 == 0);
    SwapAtParts(w, d, n, c, q);
  }

  lemma SwapAtParts(w: World, d: nat, n: nat, c: Proc, q: Proc)
    requires w.Valid() && d < 3 && InGrid(w.ax, c) && q == Sender(w.ax, d, n, c)
    ensures var v := SwapAt(w, d, n);
            && v.d == d && v.left == (n % 2 == 0) && v.From(w.ax, c) == q && v.list(q) == ListOf(w, d, n / 2, n % 2 == 0)(q)
  {
    hide ListOf;
    hide World.Valid;
  }
}
