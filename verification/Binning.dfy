/** The neighbor_bin kernel under every interleaving of its work items, and the
    host loop of Neighbor::binatoms that enlarges the bins. */
module Binning {
  import opened Rows

  /** Progress of one work item: before atomic_add, between atomic_add and the
      store, and done. */
  datatype Item = Start | Claimed(pos: nat) | Done(pos: nat)

  /** bin is coord2bin of every atom, in a grid of mbins bins of cap slots. */
  datatype Job = Job(bin: seq<nat>, mbins: nat, cap: nat) {
    ghost predicate Valid() { forall i :: 0 <= i < |bin| ==> bin[i] < mbins }

    /** Index of slot pos of bin b. */
    function Slot(b: nat, pos: nat): nat { b * cap + pos }
  }

  /** Device memory shared by the work items, and their progress. */
  datatype State = State(bincount: seq<nat>, bins: seq<int>, ibins: seq<int>, flag: bool, items: seq<Item>)

  ghost predicate WellFormed(j: Job, s: State) {
    && j.Valid()
    && |s.bincount| == j.mbins && |s.bins| == j.mbins * j.cap
    && |s.items| == |s.ibins| == |j.bin|
  }

  ghost predicate Initial(j: Job, s: State) {
    && WellFormed(j, s) && !s.flag
    && (forall b :: 0 <= b < j.mbins ==> s.bincount[b] == 0)
    && (forall i :: 0 <= i < |s.items| ==> s.items[i] == Start)
  }

  predicate CanStep(s: State, i: nat) { i < |s.items| && !s.items[i].Done? }

  /** One step of work item i: the atomic_add, or the store that follows it. */
  function Step(j: Job, s: State, i: nat): (t: State)
    requires WellFormed(j, s) && CanStep(s, i)
    ensures WellFormed(j, t)
  {
    var b := j.bin[i];
    match s.items[i]
    case Start =>
      s.(ibins := s.ibins[i := b],
         bincount := s.bincount[b := s.bincount[b] + 1],
         items := s.items[i := Claimed(s.bincount[b])])
    case Claimed(pos) =>
      if pos < j.cap then
        RowBounds(b, pos, j.mbins, j.cap);
        s.(bins := s.bins[j.Slot(b, pos) := i], items := s.items[i := Done(pos)])
      else
        s.(flag := true, items := s.items[i := Done(pos)])
  }

  /** The schedule, a list of the items that step, leads from s to t. */
  ghost predicate Leads(j: Job, s: State, schedule: seq<nat>, t: State)
    requires WellFormed(j, s)
    decreases schedule
  {
    if schedule == [] then s == t else
      CanStep(s, schedule[0]) && Leads(j, Step(j, s, schedule[0]), schedule[1..], t)
  }

  /** Item i has claimed position pos of bin b. */
  predicate Holds(j: Job, s: State, i: nat, b: nat, pos: nat) {
    i < |s.items| && i < |j.bin| && j.bin[i] == b && !s.items[i].Start? && s.items[i].pos == pos
  }

  predicate Overflows(j: Job, s: State, i: nat) {
    i < |s.items| && s.items[i].Done? && s.items[i].pos >= j.cap
  }

  /** Among the first n items, how many have claimed a position of bin b. */
  function Claims(j: Job, s: State, b: nat, n: nat): nat
    requires n <= |j.bin| && |s.items| == |j.bin|
  {
    if n == 0 then 0 else Claims(j, s, b, n - 1) + if j.bin[n - 1] == b && !s.items[n - 1].Start? then 1 else 0
  }

  /** bincount counts the claims. */
  ghost predicate Counted(j: Job, s: State)
    requires WellFormed(j, s)
  {
    forall b :: 0 <= b < j.mbins ==> s.bincount[b] == Claims(j, s, b, |j.bin|)
  }

  /** The claimed positions of bin b are 0..bincount[b] - 1, each claimed once. */
  ghost predicate Ticketed(j: Job, s: State)
    requires WellFormed(j, s)
  {
    && (forall i: nat, b: nat, pos: nat :: Holds(j, s, i, b, pos) ==> pos < s.bincount[b] && s.ibins[i] == b)
    && (forall i: nat, k: nat, b: nat, pos: nat :: Holds(j, s, i, b, pos) && Holds(j, s, k, b, pos) ==> i == k)
    && (forall b: nat, pos: nat {:trigger Asked(b, pos)} :: Asked(b, pos) && b < j.mbins && pos < s.bincount[b] ==> exists i: nat :: Holds(j, s, i, b, pos))
  }

  predicate Asked(b: nat, pos: nat) { true }

  /** Finished items are in their slot, or have raised the flag. */
  ghost predicate Stored(j: Job, s: State)
    requires WellFormed(j, s)
  {
    && (forall i :: 0 <= i < |j.bin| && s.items[i].Done? && s.items[i].pos < j.cap ==> InSlot(j, s, i, s.items[i].pos))
    && (s.flag <==> exists i: nat :: Overflows(j, s, i))
  }

  predicate InSlot(j: Job, s: State, i: nat, pos: nat)
    requires i < |j.bin|
  {
    var k := j.Slot(j.bin[i], pos);
    k < |s.bins| && s.bins[k] == i
  }

  ghost predicate Inv(j: Job, s: State) {
    WellFormed(j, s) && Counted(j, s) && Ticketed(j, s) && Stored(j, s)
  }

  lemma {:induction false} ClaimsFrame(j: Job, s: State, t: State, b: nat, n: nat, i: nat)
    requires n <= |j.bin| && |s.items| == |t.items| == |j.bin| && i < |j.bin|
    requires forall k :: 0 <= k < |j.bin| && k != i ==> s.items[k].Start? == t.items[k].Start?
    ensures Claims(j, t, b, n) == Claims(j, s, b, n) +
            if i < n && j.bin[i] == b then (if s.items[i].Start? then 1 else 0) - (if t.items[i].Start? then 1 else 0) else 0
  {
    if n > 0 { ClaimsFrame(j, s, t, b, n - 1, i); }
  }

  lemma StepCounted(j: Job, s: State, i: nat)
    requires Inv(j, s) && CanStep(s, i)
    ensures Counted(j, Step(j, s, i))
  {
    var t := Step(j, s, i);
    forall b | 0 <= b < j.mbins ensures t.bincount[b] == Claims(j, t, b, |j.bin|) {
      ClaimsFrame(j, s, t, b, |j.bin|, i);
    }
  }

  lemma StepTicketed(j: Job, s: State, i: nat)
    requires Inv(j, s) && CanStep(s, i)
    ensures Ticketed(j, Step(j, s, i))
  {
    var t := Step(j, s, i);
    forall k: nat, b: nat, pos: nat ensures Holds(j, t, k, b, pos) <==>
        Holds(j, s, k, b, pos) || (k == i && s.items[i].Start? && b == j.bin[i] && pos == s.bincount[b]) {}
    forall b: nat, pos: nat {:trigger Asked(b, pos)} | Asked(b, pos) && b < j.mbins && pos < t.bincount[b] ensures exists k: nat :: Holds(j, t, k, b, pos) {
      if pos < s.bincount[b] {
        assert Asked(b, pos);
        var k: nat :| Holds(j, s, k, b, pos);
        assert Holds(j, t, k, b, pos);
      } else {
        assert Holds(j, t, i, b, pos);
      }
    }
  }

  lemma StepStored(j: Job, s: State, i: nat)
    requires Inv(j, s) && CanStep(s, i)
    ensures Stored(j, Step(j, s, i))
  {
    var t := Step(j, s, i);
    forall k | 0 <= k < |j.bin| && t.items[k].Done? && t.items[k].pos < j.cap ensures InSlot(j, t, k, t.items[k].pos) {
      var pos := t.items[k].pos;
      RowBounds(j.bin[k], pos, j.mbins, j.cap);
      if k != i && s.items[i].Claimed? && s.items[i].pos < j.cap {
        assert Holds(j, s, k, j.bin[k], pos) && Holds(j, s, i, j.bin[i], s.items[i].pos);
        if j.Slot(j.bin[k], pos) == j.Slot(j.bin[i], s.items[i].pos) {
          RowsDiffer(j.bin[k], pos, j.bin[i], s.items[i].pos, j.cap);
        }
      }
    }
    forall k: nat ensures Overflows(j, t, k) <==> Overflows(j, s, k) || (k == i && s.items[i].Claimed? && s.items[i].pos >= j.cap) {}
    if s.flag {
      var k: nat :| Overflows(j, s, k);
      assert Overflows(j, t, k);
    } else if t.flag {
      assert Overflows(j, t, i);
    }
  }

  /** Every state an interleaving reaches keeps the invariant. */
  lemma {:induction false} RunKeeps(j: Job, s: State, schedule: seq<nat>, t: State)
    requires Inv(j, s) && Leads(j, s, schedule, t)
    ensures Inv(j, t)
    decreases schedule
  {
    if schedule != [] {
      StepCounted(j, s, schedule[0]);
      StepTicketed(j, s, schedule[0]);
      StepStored(j, s, schedule[0]);
      RunKeeps(j, Step(j, s, schedule[0]), schedule[1..], t);
    }
  }

  lemma {:induction false} NoClaims(j: Job, s: State, b: nat, n: nat)
    requires n <= |j.bin| && |s.items| == |j.bin| && forall i :: 0 <= i < |s.items| ==> s.items[i] == Start
    ensures Claims(j, s, b, n) == 0
  {
    if n > 0 { NoClaims(j, s, b, n - 1); }
  }

  lemma InitialInv(j: Job, s: State)
    requires Initial(j, s)
    ensures Inv(j, s)
  {
    forall b | 0 <= b < j.mbins ensures s.bincount[b] == Claims(j, s, b, |j.bin|) {
      NoClaims(j, s, b, |j.bin|);
    }
  }

  /** How many of the first n atoms belong to bin b. */
  function Members(bin: seq<nat>, b: nat, n: nat): nat
    requires n <= |bin|
  {
    if n == 0 then 0 else Members(bin, b, n - 1) + if bin[n - 1] == b then 1 else 0
  }

  /** The used slots of bin b. */
  function Slots(bincount: seq<nat>, bins: seq<int>, cap: nat, b: nat): seq<int>
    requires b < |bincount| && (bincount[b] <= cap ==> b * cap + bincount[b] <= |bins|)
  {
    if bincount[b] <= cap then bins[b * cap..b * cap + bincount[b]] else []
  }

  /** Each bin lists exactly the atoms that belong to it, once each. */
  ghost predicate Binned(j: Job, bincount: seq<nat>, bins: seq<int>) {
    && j.Valid() && |bincount| == j.mbins && |bins| == j.mbins * j.cap
    && forall b :: 0 <= b < j.mbins ==> BinListed(j, bincount, bins, b)
  }

  ghost predicate BinListed(j: Job, bincount: seq<nat>, bins: seq<int>, b: nat)
    requires b < |bincount|
  {
    && bincount[b] <= j.cap && b * j.cap + bincount[b] <= |bins|
    && bincount[b] == Members(j.bin, b, |j.bin|)
    && forall i :: multiset(Slots(bincount, bins, j.cap, b))[i] == if 0 <= i < |j.bin| && j.bin[i] == b then 1 else 0
  }

  predicate AllDone(s: State) { forall i :: 0 <= i < |s.items| ==> s.items[i].Done? }

  lemma {:induction false} DoneClaims(j: Job, s: State, b: nat, n: nat)
    requires n <= |j.bin| && |s.items| == |j.bin| && AllDone(s)
    ensures Claims(j, s, b, n) == Members(j.bin, b, n)
  {
    if n > 0 { DoneClaims(j, s, b, n - 1); }
  }

  lemma {:induction false} DistinctCount(s: seq<int>, v: int)
    requires forall m, n :: 0 <= m < n < |s| ==> s[m] != s[n]
    ensures multiset(s)[v] == if v in s then 1 else 0
  {
    if s != [] {
      var n := |s| - 1;
      assert s == s[..n] + [s[n]];
      DistinctCount(s[..n], v);
    }
  }

  lemma SlotHolder(j: Job, s: State, b: nat, m: nat)
    requires Inv(j, s) && AllDone(s) && b < j.mbins && m < s.bincount[b] <= j.cap
    ensures j.Slot(b, m) < |s.bins| && s.bins[j.Slot(b, m)] >= 0 && Holds(j, s, s.bins[j.Slot(b, m)], b, m)
  {
    assert Asked(b, m);
    var i: nat :| Holds(j, s, i, b, m);
    assert InSlot(j, s, i, m);
  }

  lemma SlotsListed(j: Job, s: State, b: nat)
    requires Inv(j, s) && AllDone(s) && b < j.mbins && s.bincount[b] <= j.cap
    ensures BinListed(j, s.bincount, s.bins, b)
  {
    DoneClaims(j, s, b, |j.bin|);
    var n := s.bincount[b];
    if n > 0 { RowBounds(b, n - 1, j.mbins, j.cap); } else { RowStart(b, j.mbins, j.cap); }
    var l := Slots(s.bincount, s.bins, j.cap, b);
    assert |l| == n;
    forall m: nat | m < n ensures l[m] >= 0 && Holds(j, s, l[m], b, m) {
      SlotHolder(j, s, b, m);
      assert l[m] == s.bins[j.Slot(b, m)];
    }
    hide Slots;
    hide Inv;
    forall i ensures multiset(l)[i] == if 0 <= i < |j.bin| && j.bin[i] == b then 1 else 0 {
      SlotCount(j, s, b, l, i);
    }
  }

  lemma SlotCount(j: Job, s: State, b: nat, l: seq<int>, i: int)
    requires Inv(j, s) && AllDone(s) && b < j.mbins && |l| == s.bincount[b]
    requires forall m: nat :: m < |l| ==> l[m] >= 0 && Holds(j, s, l[m], b, m)
    ensures multiset(l)[i] == if 0 <= i < |j.bin| && j.bin[i] == b then 1 else 0
  {
    DistinctCount(l, i);
    if 0 <= i < |j.bin| && j.bin[i] == b {
      var m := s.items[i].pos;
      assert Holds(j, s, i, b, m) && m < |l|;
      assert Holds(j, s, l[m], b, m);
    }
  }

  /** Whatever the schedule, a finished launch has counted every bin, raises the
      flag exactly if some bin has more atoms than slots, and otherwise lists in
      each bin exactly its atoms. */
  lemma Outcome(j: Job, s: State, schedule: seq<nat>, t: State)
    requires Initial(j, s) && Leads(j, s, schedule, t) && AllDone(t)
    ensures WellFormed(j, t) && t.ibins == j.bin
    ensures forall b :: 0 <= b < j.mbins ==> t.bincount[b] == Members(j.bin, b, |j.bin|)
    ensures t.flag <==> exists b :: 0 <= b < j.mbins && Members(j.bin, b, |j.bin|) > j.cap
    ensures !t.flag ==> Binned(j, t.bincount, t.bins)
  {
    InitialInv(j, s);
    RunKeeps(j, s, schedule, t);
    Finished(j, t);
  }

  lemma Finished(j: Job, t: State)
    requires Inv(j, t) && AllDone(t)
    ensures WellFormed(j, t) && t.ibins == j.bin
    ensures forall b :: 0 <= b < j.mbins ==> t.bincount[b] == Members(j.bin, b, |j.bin|)
    ensures t.flag <==> exists b :: 0 <= b < j.mbins && Members(j.bin, b, |j.bin|) > j.cap
    ensures !t.flag ==> Binned(j, t.bincount, t.bins)
  {
    forall b | 0 <= b < j.mbins ensures t.bincount[b] == Members(j.bin, b, |j.bin|) {
      DoneClaims(j, t, b, |j.bin|);
    }
    forall i | 0 <= i < |j.bin| ensures t.ibins[i] == j.bin[i] {
      assert Holds(j, t, i, j.bin[i], t.items[i].pos);
    }
    if t.flag {
      var i: nat :| Overflows(j, t, i);
      assert Holds(j, t, i, j.bin[i], t.items[i].pos);
      assert t.bincount[j.bin[i]] > j.cap;
    }
    forall b | 0 <= b < j.mbins && t.bincount[b] > j.cap ensures t.flag {
      assert Asked(b, j.cap);
      var i: nat :| Holds(j, t, i, b, j.cap);
      assert Overflows(j, t, i);
    }
    if !t.flag {
      forall b | 0 <= b < j.mbins ensures BinListed(j, t.bincount, t.bins, b) {
        SlotsListed(j, t, b);
      }
    }
  }

  /** The launch of neighbor_bin: global memory as arrays, one method per atomic
      part of the kernel. */
  class Device {
    const job: Job
    var bincount: array<nat>
    var bins: array<int>
    var ibins: array<int>
    var flag: bool
    var items: array<Item>

    ghost predicate Valid()
      reads this, bincount, bins, ibins, items
    {
      && WellFormed(job, Memory())
      && (bincount as object) != (bins as object) && (bincount as object) != (ibins as object) && (bincount as object) != (items as object)
      && bins != ibins && (bins as object) != (items as object) && (ibins as object) != (items as object)
    }

    ghost function Memory(): State
      reads this, bincount, bins, ibins, items
    {
      State(bincount[..], bins[..], ibins[..], flag, items[..])
    }

    /** binatoms allocates bins and clears bincount and the flag before the launch. */
    constructor (j: Job)
      requires j.Valid()
      ensures Valid() && job == j && Initial(j, Memory())
      ensures fresh(bincount) && fresh(bins) && fresh(ibins) && fresh(items)
    {
      job := j;
      bincount := new nat[j.mbins](_ => 0);
      bins := new int[j.mbins * j.cap];
      ibins := new int[|j.bin|];
      items := new Item[|j.bin|](_ => Start);
      flag := false;
    }

    /** Work item i up to and including its atomic_add. */
    method Claim(i: nat)
      requires Valid() && i < items.Length && items[i].Start?
      modifies bincount, ibins, items
      ensures Valid()
      ensures Memory() == Step(job, old(Memory()), i)
    {
      var b := job.bin[i];
      ibins[i] := b;
      var pos := bincount[b];
      bincount[b] := pos + 1;
      items[i] := Claimed(pos);
    }

    /** Work item i after its atomic_add. */
    method Store(i: nat)
      requires Valid() && i < items.Length && items[i].Claimed?
      modifies this`flag, bins, items
      ensures Valid()
      ensures Memory() == Step(job, old(Memory()), i)
    {
      var b, pos := job.bin[i], items[i].pos;
      if pos < job.cap {
        RowBounds(b, pos, job.mbins, job.cap);
        bins[b * job.cap + pos] := i;
      } else {
        flag := true;
      }
      items[i] := Done(pos);
    }

    /** The whole launch, in an order the scheduler chooses. */
    method Launch()
      requires Valid() && Initial(job, Memory())
      modifies this`flag, bincount, bins, ibins, items
      ensures Valid()
      ensures ibins[..] == job.bin
      ensures flag <==> exists b :: 0 <= b < job.mbins && Members(job.bin, b, |job.bin|) > job.cap
      ensures !flag ==> Binned(job, bincount[..], bins[..])
    {
      InitialInv(job, Memory());
      while exists i: nat | i < items.Length :: !items[i].Done?
        invariant Valid() && Inv(job, Memory())
        decreases Pending(items[..])
      {
        var i: nat :| i < items.Length && !items[i].Done?;
        ghost var s := Memory();
        if items[i].Start? { Claim(i); } else { Store(i); }
        StepCounted(job, s, i);
        StepTicketed(job, s, i);
        StepStored(job, s, i);
        StepPending(s.items, i, items[i]);
      }
      Finished(job, Memory());
    }
  }

  /** Atomic parts the work items still have to do. */
  function Pending(items: seq<Item>): nat {
    if items == [] then 0 else
      (match items[|items| - 1] case Start => 2 case Claimed(_) => 1 case Done(_) => 0) + Pending(items[..|items| - 1])
  }

  lemma {:induction false} StepPending(items: seq<Item>, i: nat, it: Item)
    requires i < |items|
    requires (items[i].Start? && it.Claimed?) || (items[i].Claimed? && it.Done?)
    ensures Pending(items[i := it]) == Pending(items) - 1
  {
    var n := |items| - 1;
    if i < n {
      assert items[i := it][..n] == items[..n][i := it];
      StepPending(items[..n], i, it);
    } else {
      assert items[i := it][..n] == items[..n];
    }
  }

  lemma {:induction false} MembersBound(bin: seq<nat>, b: nat, n: nat)
    requires n <= |bin|
    ensures Members(bin, b, n) <= n
  {
    if n > 0 { MembersBound(bin, b, n - 1); }
  }

  /** Neighbor::binatoms: relaunch with twice the slots until no bin overflows.
      It stops before the bins hold twice as many atoms as there are, and the
      bins of the last launch list every atom. */
  method BinAtoms(bin: seq<nat>, mbins: nat, atomsPerBin: nat) returns (d: Device)
    requires forall i :: 0 <= i < |bin| ==> bin[i] < mbins
    requires atomsPerBin >= 1
    ensures d.Valid() && d.job.bin == bin && d.job.mbins == mbins
    ensures !d.flag && d.ibins[..] == bin && Binned(d.job, d.bincount[..], d.bins[..])
    ensures d.job.cap == atomsPerBin || (atomsPerBin < d.job.cap < 2 * |bin|)
  {
    var cap := atomsPerBin;
    d := new Device(Job(bin, mbins, cap));
    d.Launch();
    while d.flag
      invariant d.Valid() && d.job == Job(bin, mbins, cap)
      invariant cap >= 1 && (cap == atomsPerBin || (atomsPerBin < cap < 2 * |bin|))
      invariant d.flag <==> exists b :: 0 <= b < mbins && Members(bin, b, |bin|) > cap
      invariant d.ibins[..] == bin
      invariant !d.flag ==> Binned(d.job, d.bincount[..], d.bins[..])
      decreases |bin| - cap
    {
      ghost var b: nat :| b < mbins && Members(bin, b, |bin|) > cap;
      MembersBound(bin, b, |bin|);
      cap := cap * 2;
      d := new Device(Job(bin, mbins, cap));
      d.Launch();
    }
  }
}
