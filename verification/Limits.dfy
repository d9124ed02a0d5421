/** The conditions of Harmless are exact: when they fail a command can leave the copies
    incoherent; and a run from the start in which one does. */
module Limits {
  import opened Wrappers
  import opened Devices
  import opened Coherence
  import opened Sequential
  import opened OneMemory
  import opened Runs

  /** An object of the given flags and size: undefined if nothing is latest, and v in all
      latest places otherwise. */
  ghost predicate Current(devs: seq<Device>, ob: Object, flags: Flags, size: nat, latest: set<Loc>, v: Option<Data>) {
    && ObjectOk(devs, ob) && ob.flags == flags && ob.size == size && ob.latest == latest
    && (v.None? <==> latest == {}) && (v.Some? ==> |v.value| == size)
    && forall l | l in latest :: l in ob.copies && Some(ob.copies[l]) == v
  }

  /** The contents a command on device n starts from: those of the object, or if it is
      undefined what the device finds. */
  function Base(ob: Object, n: nat, v: Option<Data>): Data
    requires Dev(n) in ob.copies
  {
    match v case None => ob.copies[Dev(n)] case Some(w) => w
  }

  /** After the command, every latest place holds w. */
  ghost predicate Coherent(ob: Object, w: Data) { Tracked(ob, Some(w), Host, map[], 0) }

  function Places(n: nat): (s: set<Loc>)
    ensures forall l :: l in s <==> l.Host? || l.n < n
  {
    if n == 0 then {Host} else Places(n - 1) + {Dev(n - 1)}
  }

  function Filled(v: int, size: nat): (d: Data)
    ensures |d| == size && forall i :: 0 <= i < size ==> d[i] == v
  {
    seq(size, _ => v)
  }

  /** Latest places hold zeros, all others ones. */
  function Example(devs: seq<Device>, flags: Flags, size: nat, latest: set<Loc>): Object {
    Object(flags, size, latest, map l | l in Places(|devs|) :: if l in latest then Filled(0, size) else Filled(1, size))
  }

  function ExampleValue(size: nat, latest: set<Loc>): Option<Data> { if latest == {} then None else Some(Filled(0, size)) }

  lemma ExampleCurrent(devs: seq<Device>, flags: Flags, size: nat, latest: set<Loc>)
    requires forall l | l in latest :: Known(devs, l)
    ensures Current(devs, Example(devs, flags, size, latest), flags, size, latest, ExampleValue(size, latest))
  {}

  /** Filling part of zeros and of ones gives different contents. */
  lemma PartDiffers(size: nat, off: nat, len: nat)
    requires off + len <= size && !(off == 0 && len == size)
    ensures Splice(Filled(0, size), off, Filled(0, len)) != Splice(Filled(1, size), off, Filled(0, len))
  {
    var a, b := Splice(Filled(0, size), off, Filled(0, len)), Splice(Filled(1, size), off, Filled(0, len));
    if off > 0 {
      assert a[0] == 0 && b[0] == 1;
    } else {
      assert a[size - 1] == 0 && b[size - 1] == 1;
    }
  }

  /** The object after a fill on device n, which never looks where the object is. */
  function AfterFill(ob: Object, n: nat, off: nat, data: Data): Object
    requires Dev(n) in ob.copies && off + |data| <= |ob.copies[Dev(n)]|
  {
    ob.(latest := {Dev(n)}, copies := ob.copies[Dev(n) := Splice(ob.copies[Dev(n)], off, data)])
  }

  ghost predicate FillKeeps(ob: Object, n: nat, off: nat, data: Data, v: Option<Data>)
    requires Dev(n) in ob.copies && off + |data| <= |ob.copies[Dev(n)]| && (v.Some? ==> |v.value| == |ob.copies[Dev(n)]|)
  {
    Coherent(AfterFill(ob, n, off, data), Splice(Base(ob, n, v), off, data))
  }

  /** A fill is right, whatever the contents, exactly if it covers the object, its device
      has the latest contents, or no place has. */
  lemma FillExact(devs: seq<Device>, flags: Flags, size: nat, latest: set<Loc>, n: nat, off: nat, len: nat)
    requires n < |devs| && off + len <= size && forall l | l in latest :: Known(devs, l)
    ensures (forall ob, v, data | Current(devs, ob, flags, size, latest, v) && |data| == len :: FillKeeps(ob, n, off, data, v)) <==>
            Dev(n) in latest || latest == {} || (off == 0 && len == size)
  {
    if Dev(n) in latest || latest == {} || (off == 0 && len == size) {
      forall ob, v, data | Current(devs, ob, flags, size, latest, v) && |data| == len ensures FillKeeps(ob, n, off, data, v) {
        if off == 0 && len == size {
          SpliceWhole(ob.copies[Dev(n)], data);
          SpliceWhole(Base(ob, n, v), data);
        }
      }
    } else {
      var ob, v, data := Example(devs, flags, size, latest), Some(Filled(0, size)), Filled(0, len);
      ExampleCurrent(devs, flags, size, latest);
      PartDiffers(size, off, len);
      assert ob.copies[Dev(n)] == Filled(1, size);
      assert !FillKeeps(ob, n, off, data, v);
    }
  }

  /** Where LocateMemOnDevice needs no clone. */
  predicate At(latest: set<Loc>, n: nat) { Dev(n) in latest || latest == {} }

  /** The object after a write on device n, when it has been located there. */
  ghost predicate WriteKeeps(devs: seq<Device>, ob: Object, n: nat, off: nat, data: Data, v: Option<Data>)
    requires ObjectOk(devs, ob) && n < |devs| && off + |data| <= ob.size && (v.Some? ==> |v.value| == ob.size)
  {
    Coherent(Written(devs, ob.(latest := {Dev(n)}), n, off, data), Splice(Base(ob, n, v), off, data))
  }

  /** A write to a read-only object, which goes to all devices, is right, whatever the
      contents, exactly if it covers the object or all other devices have the latest
      contents; if no place has, there must be no other device. */
  lemma ReadOnlyWriteExact(devs: seq<Device>, flags: Flags, size: nat, latest: set<Loc>, n: nat, off: nat, len: nat)
    requires n < |devs| && off + len <= size && (forall l | l in latest :: Known(devs, l)) && At(latest, n) && flags.OnlyReadOnly()
    ensures (forall ob, v, data | Current(devs, ob, flags, size, latest, v) && |data| == len :: WriteKeeps(devs, ob, n, off, data, v)) <==>
            (off == 0 && len == size) || OthersLatest(devs, latest, n)
  {
    if (off == 0 && len == size) || OthersLatest(devs, latest, n) {
      forall ob, v, data | Current(devs, ob, flags, size, latest, v) && |data| == len ensures WriteKeeps(devs, ob, n, off, data, v) {
        ReadOnlyWriteKeeps(devs, ob, flags, size, latest, n, off, data, v);
      }
    } else {
      var k: nat :| k < |devs| && k != n && Dev(k) !in latest;
      ReadOnlyWriteFails(devs, flags, size, latest, n, off, len, k);
    }
  }

  /** Device n holds zeros and device k ones, and afterwards both count as latest. */
  lemma ReadOnlyWriteFails(devs: seq<Device>, flags: Flags, size: nat, latest: set<Loc>, n: nat, off: nat, len: nat, k: nat)
    requires n < |devs| && off + len <= size && (forall l | l in latest :: Known(devs, l)) && At(latest, n) && flags.OnlyReadOnly()
    requires !(off == 0 && len == size) && k < |devs| && k != n && Dev(k) !in latest
    ensures exists ob, v, data | Current(devs, ob, flags, size, latest, v) && |data| == len :: !WriteKeeps(devs, ob, n, off, data, v)
  {
    var zeros := if latest == {} then {Dev(n)} else latest;
    var ob, v, data := Example(devs, flags, size, zeros).(latest := latest), ExampleValue(size, latest), Filled(0, len);
    ExampleCurrent(devs, flags, size, zeros);
    PartDiffers(size, off, len);
    assert Current(devs, ob, flags, size, latest, v);
    assert Base(ob, n, v) == Filled(0, size);
    var w := Written(devs, ob.(latest := {Dev(n)}), n, off, data);
    assert Dev(k) in w.latest && w.copies[Dev(k)] == Splice(Filled(1, size), off, data);
    assert !WriteKeeps(devs, ob, n, off, data, v);
  }

  lemma ReadOnlyWriteKeeps(devs: seq<Device>, ob: Object, flags: Flags, size: nat, latest: set<Loc>, n: nat, off: nat, data: Data, v: Option<Data>)
    requires Current(devs, ob, flags, size, latest, v) && n < |devs| && off + |data| <= size && At(latest, n) && flags.OnlyReadOnly()
    requires (off == 0 && |data| == size) || OthersLatest(devs, latest, n)
    ensures WriteKeeps(devs, ob, n, off, data, v)
  {
    var w := Written(devs, ob.(latest := {Dev(n)}), n, off, data);
    var base := Base(ob, n, v);
    forall l | l in w.latest ensures l in w.copies && w.copies[l] == Splice(base, off, data) {
      assert l.Dev? && l.n < |devs| && w.copies[l] == Splice(ob.copies[l], off, data);
      if off == 0 && |data| == size {
        SpliceWhole(ob.copies[l], data);
        SpliceWhole(base, data);
      } else {
        assert l.n == n || Dev(l.n) in latest;
      }
    }
  }

  /** The object after a kernel on device n has left out in it. */
  ghost predicate KernelKeeps(ob: Object, n: nat, out: Data) {
    var u := AfterUpdate(ob, Dev(n));
    Coherent(u.(copies := u.copies[Dev(n) := out]), out)
  }

  /** A kernel may change an argument that is not writable, whatever the contents,
      exactly if no other place counts as latest, or there is nothing to change. */
  lemma KernelExact(devs: seq<Device>, flags: Flags, size: nat, latest: set<Loc>, n: nat)
    requires n < |devs| && (forall l | l in latest :: Known(devs, l)) && At(latest, n) && !flags.Writable()
    ensures (forall ob, v, out | Current(devs, ob, flags, size, latest, v) && |out| == size :: KernelKeeps(ob, n, out)) <==>
            latest <= {Dev(n)} || size == 0
  {
    if latest <= {Dev(n)} || size == 0 {
      forall ob, v, out | Current(devs, ob, flags, size, latest, v) && |out| == size ensures KernelKeeps(ob, n, out) {}
    } else {
      var l :| l in latest && l != Dev(n);
      var ob, v, out := Example(devs, flags, size, latest), Some(Filled(0, size)), Filled(1, size);
      ExampleCurrent(devs, flags, size, latest);
      assert out[0] == 1 && v.value[0] == 0;
      var u := AfterUpdate(ob, Dev(n));
      assert l in u.latest && u.copies[Dev(n) := out][l] == v.value;
      assert !KernelKeeps(ob, n, out);
    }
  }

  /** An undefined read-only object of two elements, another one on each device: writing
      the first leaves both devices latest, and the second different. */
  lemma UndefinedWrite()
    ensures var flags := Flags(false, true, false, false);
            var ob := Object(flags, 2, {}, map[Host := [0, 0], Dev(0) := [0, 0], Dev(1) := [1, 1]]);
            && Current(GPUS, ob, flags, 2, {}, None)
            && var w := Written(GPUS, ob.(latest := {Dev(0)}), 0, 0, [7]);
               w.latest == {Dev(0), Dev(1)} && w.copies[Dev(0)] == [7, 0] && w.copies[Dev(1)] == [7, 1]
  {
    assert |GPUS| == 2;
    var flags := Flags(false, true, false, false);
    var ob := Object(flags, 2, {}, map[Host := [0, 0], Dev(0) := [0, 0], Dev(1) := [1, 1]]);
    forall l ensures l in ob.copies <==> Known(GPUS, l) {
      assert l.Dev? && l.n < 2 ==> l == Dev(0) || l == Dev(1);
    }
    var w := Written(GPUS, ob.(latest := {Dev(0)}), 0, 0, [7]);
    forall l ensures l in w.latest <==> l in {Dev(0), Dev(1)} {}
  }

  /** The flags CLMem::CreateBuffer keeps: to flags without an access flag it adds the
      CL_MEM_READ_WRITE they contain, not CL_MEM_READ_WRITE. */
  function CreatedFlags(flags: Flags): Flags {
    if !(flags.readWrite || flags.readOnly || flags.writeOnly) then flags.(readWrite := flags.readWrite || flags.readWrite) else flags
  }

  /** So an object created without access flags is not writable for the runtime. */
  lemma DefaultNotWritable(flags: Flags)
    requires !flags.readWrite && !flags.readOnly && !flags.writeOnly
    ensures !CreatedFlags(flags).Writable()
  {}

  // A run in which that matters: an undefined object created without access flags; a
  // kernel on device 0 that stores 5 in it, one on device 1 that stores 7, and a read on
  // device 0.

  const GPUS := [Device(false, 0, None), Device(false, 0, None)]
  const DEFAULT := CreatedFlags(Flags(false, false, false, true))

  function Putting(v: int): map<nat, Data> -> map<nat, Data> { ins => map a | a in ins :: [v] }

  const FIVE := Command(0, Kernel([0], Putting(5)))
  const SEVEN := Command(1, Kernel([0], Putting(7)))
  const LOAD := Command(0, Read(0, 0, 1))

  const BOTH := {Dev(0), Dev(1)}

  function Holding(v: int): map<nat, Data> { map[0 := [v]] }

  function State(latest: set<Loc>, d0: int, d1: int, queue: seq<Command>, head: Head, log: seq<map<nat, Data>>): Machine {
    Machine(map[0 := Object(DEFAULT, 1, latest, map[Host := [0], Dev(0) := [d0], Dev(1) := [d1]])], queue, head, log)
  }

  ghost predicate Ours(latest: set<Loc>, queue: seq<Command>) {
    latest <= BOTH && (queue == [FIVE, SEVEN, LOAD] || queue == [SEVEN, LOAD] || queue == [LOAD])
  }

  lemma ObjectIn(latest: set<Loc>, d0: int, d1: int)
    requires latest <= BOTH
    ensures ObjectOk(GPUS, Object(DEFAULT, 1, latest, map[Host := [0], Dev(0) := [d0], Dev(1) := [d1]]))
  {
    assert |GPUS| == 2;
    var ob := Object(DEFAULT, 1, latest, map[Host := [0], Dev(0) := [d0], Dev(1) := [d1]]);
    forall l ensures l in ob.copies <==> Known(GPUS, l) {
      assert l.Dev? && l.n < 2 ==> l == Dev(0) || l == Dev(1);
    }
  }

  lemma PutsOk(latest: set<Loc>, d0: int, d1: int, v: int)
    ensures var objs := State(latest, d0, d1, [], FRESH, []).objs;
            forall ins: map<nat, Data> | Fits(objs, [0], ins) :: Fits(objs, [0], Putting(v)(ins))
  {}

  lemma StateOk(latest: set<Loc>, d0: int, d1: int, queue: seq<Command>, head: Head, log: seq<map<nat, Data>>)
    requires Ours(latest, queue)
    ensures var m := State(latest, d0, d1, queue, head, log);
            Ok(GPUS, m) && ObjectsOk(GPUS, m.objs) && Names(m.objs, queue[0].op)
  {
    var m := State(latest, d0, d1, queue, head, log);
    assert |GPUS| == 2;
    ObjectIn(latest, d0, d1);
    PutsOk(latest, d0, d1, 5);
    PutsOk(latest, d0, d1, 7);
    assert CommandOk(GPUS, m.objs, FIVE) && CommandOk(GPUS, m.objs, SEVEN) && CommandOk(GPUS, m.objs, LOAD);
    hide CommandOk;
    hide ObjectOk;
    hide Putting;
    forall i | 0 <= i < |queue| ensures CommandOk(GPUS, m.objs, queue[i]) {
      assert queue[i] == FIVE || queue[i] == SEVEN || queue[i] == LOAD;
    }
    CommandNames(GPUS, m.objs, queue[0]);
  }

  /** One step of the run, the memory with it. */
  ghost predicate Goes(m: Machine, q: Memory, a: Action, m': Machine, q': Memory) {
    Enabled(GPUS, m, a) && Step(GPUS, m, a) == m' && Follows(m, q, a, q')
  }

  function Device0(o: nat): Loc { Dev(0) }
  function Device1(o: nat): Loc { Dev(1) }

  /** Nothing is latest, and the first kernel is submitted at once. */
  lemma FirstSubmits(q: Memory)
    ensures Goes(State({}, 0, 0, [FIVE, SEVEN, LOAD], FRESH, []), q, Schedule(Device0),
                 State({Dev(0)}, 0, 0, [FIVE, SEVEN, LOAD], Submitted(NoFetch, Dev(0)), []), q)
  {
    var queue := [FIVE, SEVEN, LOAD];
    var m := State({}, 0, 0, queue, FRESH, []);
    StateOk({}, 0, 0, queue, FRESH, []);
    hide Ok;
    hide ObjectsOk;
    hide Putting;
    assert |GPUS| == 2;
    assert Located(m.objs, 0, Dev(0));
    assert [0][..0] == [];
    assert LocateAll(m.objs, map[], [0], Dev(0), Device0) == (m.objs, map[]);
    assert m.objs[0].latest + {Dev(0)} == {Dev(0)};
    assert UpdateAll(m.objs, [], Dev(0)) == m.objs;
    assert UpdateAll(m.objs, [0], Dev(0)) == State({Dev(0)}, 0, 0, queue, FRESH, []).objs;
  }

  /** A kernel that stores v runs on device n. */
  lemma KernelRuns(latest: set<Loc>, d0: int, d1: int, c: Command, v: int, queue: seq<Command>, log: seq<map<nat, Data>>, q: Memory)
    requires Ours(latest, [c] + queue) && c == Command(c.dev, Kernel([0], Putting(v))) && c.dev < 2
    requires var had := if c.dev == 0 then d0 else d1;
             q.mem == map[0 := None] || q.mem == map[0 := Some([had])]
    ensures var had := if c.dev == 0 then d0 else d1;
            Goes(State(latest, d0, d1, [c] + queue, Submitted(NoFetch, Dev(c.dev)), log), q, Run,
                 if c.dev == 0 then State(latest, v, d1, queue, FRESH, log + [Holding(had)]) else State(latest, d0, v, queue, FRESH, log + [Holding(had)]),
                 Memory(map[0 := Some([v])], q.log + [Holding(had)]))
  {
    hide *;
    KernelReady(latest, d0, d1, c, v, queue, log);
    KernelStores(latest, d0, d1, c, v, queue, log);
    KernelApplied(if c.dev == 0 then d0 else d1, c, v, q);
    KernelGoes(latest, d0, d1, c, v, queue, log, q);
  }

  lemma KernelReady(latest: set<Loc>, d0: int, d1: int, c: Command, v: int, queue: seq<Command>, log: seq<map<nat, Data>>)
    requires Ours(latest, [c] + queue) && c == Command(c.dev, Kernel([0], Putting(v))) && c.dev < 2
    ensures var m := State(latest, d0, d1, [c] + queue, Submitted(NoFetch, Dev(c.dev)), log);
            && Executable(GPUS, m) && Enabled(GPUS, m, Run) && Findable(m) && m.queue == [c] + queue
            && Found(m) == Holding(if c.dev == 0 then d0 else d1)
  {
    var m := State(latest, d0, d1, [c] + queue, Submitted(NoFetch, Dev(c.dev)), log);
    StateOk(latest, d0, d1, [c] + queue, m.head, log);
    assert |GPUS| == 2 && m.queue[0] == c;
    hide Ok;
    hide Putting;
    assert Touched(c.op) == [0];
    assert Found(m).Keys == {0};
  }

  lemma KernelStores(latest: set<Loc>, d0: int, d1: int, c: Command, v: int, queue: seq<Command>, log: seq<map<nat, Data>>)
    requires c == Command(c.dev, Kernel([0], Putting(v))) && c.dev < 2
    ensures var m, had := State(latest, d0, d1, [c] + queue, Submitted(NoFetch, Dev(c.dev)), log), if c.dev == 0 then d0 else d1;
            && (forall a | a in [0] :: a in m.objs && Dev(c.dev) in m.objs[a].copies) && Contents(m.objs, [0], Dev(c.dev)) == Holding(had)
            && Putting(v)(Holding(had)) == Holding(v) && (forall a | a in Holding(v) :: a in m.objs)
            && Stored(m.objs, Holding(v), Dev(c.dev)) == (if c.dev == 0 then State(latest, v, d1, queue, FRESH, log) else State(latest, d0, v, queue, FRESH, log)).objs
  {
    var m, had := State(latest, d0, d1, [c] + queue, Submitted(NoFetch, Dev(c.dev)), log), if c.dev == 0 then d0 else d1;
    assert Contents(m.objs, [0], Dev(c.dev)) == Holding(had);
    assert Putting(v)(Holding(had)).Keys == {0};
    var r := Stored(m.objs, Holding(v), Dev(c.dev));
    var n := if c.dev == 0 then State(latest, v, d1, queue, FRESH, log) else State(latest, d0, v, queue, FRESH, log);
    assert r.Keys == n.objs.Keys;
    assert r[0].copies == n.objs[0].copies;
  }

  lemma KernelApplied(had: int, c: Command, v: int, q: Memory)
    requires c == Command(c.dev, Kernel([0], Putting(v))) && (q.mem == map[0 := None] || q.mem == map[0 := Some([had])])
    ensures Performs(q, c.op, Holding(had)) && Apply(q, c.op, Holding(had)) == Memory(map[0 := Some([v])], q.log + [Holding(had)])
  {
    assert Values(q, [0], Holding(had)) == Holding(had);
    assert Putting(v)(Holding(had)) == Holding(v);
    assert Apply(q, c.op, Holding(had)).mem == map[0 := Some([v])];
  }

  lemma KernelGoes(latest: set<Loc>, d0: int, d1: int, c: Command, v: int, queue: seq<Command>, log: seq<map<nat, Data>>, q: Memory)
    requires c == Command(c.dev, Kernel([0], Putting(v))) && c.dev < 2
    requires var m, had := State(latest, d0, d1, [c] + queue, Submitted(NoFetch, Dev(c.dev)), log), if c.dev == 0 then d0 else d1;
             && Executable(GPUS, m) && Enabled(GPUS, m, Run) && Findable(m) && m.queue == [c] + queue && Found(m) == Holding(had)
             && (forall a | a in [0] :: a in m.objs && Dev(c.dev) in m.objs[a].copies) && Contents(m.objs, [0], Dev(c.dev)) == Holding(had)
             && Putting(v)(Holding(had)) == Holding(v) && (forall a | a in Holding(v) :: a in m.objs)
             && Stored(m.objs, Holding(v), Dev(c.dev)) == (if c.dev == 0 then State(latest, v, d1, queue, FRESH, log) else State(latest, d0, v, queue, FRESH, log)).objs
             && Performs(q, c.op, Holding(had)) && Apply(q, c.op, Holding(had)) == Memory(map[0 := Some([v])], q.log + [Holding(had)])
    ensures var had := if c.dev == 0 then d0 else d1;
            Goes(State(latest, d0, d1, [c] + queue, Submitted(NoFetch, Dev(c.dev)), log), q, Run,
                 if c.dev == 0 then State(latest, v, d1, queue, FRESH, log + [Holding(had)]) else State(latest, d0, v, queue, FRESH, log + [Holding(had)]),
                 Memory(map[0 := Some([v])], q.log + [Holding(had)]))
  {
    hide Executable;
    hide Enabled;
    hide Findable;
    hide Found;
    hide Contents;
    hide Stored;
    hide Putting;
    hide Performs;
    hide Apply;
    hide Holding;
    hide DEFAULT;
    assert ([c] + queue)[0] == c && ([c] + queue)[1..] == queue;
  }

  const SENT := Resolving(true, 1, map[0 := Ordered(Dev(0))], NoFetch, Dev(1))
  const HELD := Resolving(true, 1, map[0 := Carried(Dev(0), [5])], NoFetch, Dev(1))
  const THERE := Resolving(true, 1, map[], NoFetch, Dev(1))

  /** The second kernel has to wait for a clone. */
  lemma SecondWaits(log: seq<map<nat, Data>>, q: Memory)
    ensures Goes(State({Dev(0)}, 5, 0, [SEVEN, LOAD], FRESH, log), q, Schedule(Device0), State(BOTH, 5, 0, [SEVEN, LOAD], SENT, log), q)
  {
    var queue := [SEVEN, LOAD];
    var m := State({Dev(0)}, 5, 0, queue, FRESH, log);
    StateOk({Dev(0)}, 5, 0, queue, FRESH, log);
    ObjectIn({Dev(0)}, 5, 0);
    hide Ok;
    hide ObjectsOk;
    hide ObjectOk;
    hide Putting;
    assert |GPUS| == 2;
    assert NearestChoice(GPUS, m.objs, 1, Device0);
    assert !Located(m.objs, 0, Dev(1));
    assert [0][..0] == [];
    var r := LocateAll(m.objs, map[], [0], Dev(1), Device0);
    assert LocateAll(m.objs, map[], [], Dev(1), Device0) == (m.objs, map[]);
    assert m.objs[0].latest + {Dev(1)} == BOTH;
    assert r.0 == State(BOTH, 5, 0, queue, SENT, log).objs;
    assert r.1 == map[0 := Ordered(Dev(0))];
  }

  lemma CloneReads(log: seq<map<nat, Data>>, q: Memory)
    ensures Goes(State(BOTH, 5, 0, [SEVEN, LOAD], SENT, log), q, Clone(0), State(BOTH, 5, 0, [SEVEN, LOAD], HELD, log), q)
  {
    StateOk(BOTH, 5, 0, [SEVEN, LOAD], SENT, log);
    ObjectIn(BOTH, 5, 0);
    hide Ok;
    hide ObjectOk;
    hide Putting;
    assert |GPUS| == 2;
    var m, n := State(BOTH, 5, 0, [SEVEN, LOAD], SENT, log), State(BOTH, 5, 0, [SEVEN, LOAD], HELD, log);
    assert Cloning(GPUS, m, 0);
    assert m.objs[0 := m.objs[0]] == m.objs;
    assert ClonesLeft(m.head.clones, 0, m.objs[0]) == n.head.clones;
  }

  lemma CloneWrites(log: seq<map<nat, Data>>, q: Memory)
    ensures Goes(State(BOTH, 5, 0, [SEVEN, LOAD], HELD, log), q, Clone(0), State(BOTH, 5, 5, [SEVEN, LOAD], THERE, log), q)
  {
    StateOk(BOTH, 5, 0, [SEVEN, LOAD], HELD, log);
    ObjectIn(BOTH, 5, 0);
    hide Ok;
    hide ObjectOk;
    hide Putting;
    assert |GPUS| == 2;
    var m, n := State(BOTH, 5, 0, [SEVEN, LOAD], HELD, log), State(BOTH, 5, 5, [SEVEN, LOAD], THERE, log);
    assert Cloning(GPUS, m, 0);
    SpliceWhole(m.objs[0].copies[Dev(1)], [5]);
    assert ClonedObject(GPUS, m.objs[0], m.head.clones[0], 1).copies == n.objs[0].copies;
    assert ClonesLeft(m.head.clones, 0, m.objs[0]) == map[];
  }

  lemma SecondSubmits(log: seq<map<nat, Data>>, q: Memory)
    ensures Goes(State(BOTH, 5, 5, [SEVEN, LOAD], THERE, log), q, Schedule(Device1), State(BOTH, 5, 5, [SEVEN, LOAD], Submitted(NoFetch, Dev(1)), log), q)
  {
    var queue := [SEVEN, LOAD];
    var m := State(BOTH, 5, 5, queue, THERE, log);
    StateOk(BOTH, 5, 5, queue, THERE, log);
    ObjectIn(BOTH, 5, 5);
    hide Ok;
    hide ObjectsOk;
    hide ObjectOk;
    hide Putting;
    assert |GPUS| == 2;
    assert NearestChoice(GPUS, m.objs, 1, Device1);
    assert [0][..0] == [];
    assert BOTH + {Dev(1)} == BOTH;
    assert UpdateAll(m.objs, [0], Dev(1)) == m.objs;
  }

  lemma LoadSubmits(log: seq<map<nat, Data>>, q: Memory)
    ensures Goes(State(BOTH, 5, 7, [LOAD], FRESH, log), q, Schedule(Device0), State(BOTH, 5, 7, [LOAD], Submitted(NoFetch, Dev(0)), log), q)
  {
    var m := State(BOTH, 5, 7, [LOAD], FRESH, log);
    StateOk(BOTH, 5, 7, [LOAD], FRESH, log);
    ObjectIn(BOTH, 5, 7);
    hide Ok;
    hide ObjectsOk;
    hide ObjectOk;
    assert |GPUS| == 2;
    assert NearestChoice(GPUS, m.objs, 0, Device0);
    assert BOTH + {Dev(0)} == BOTH;
    assert AddLatest(m.objs, 0, Dev(0)) == m.objs;
  }

  lemma LoadRuns(log: seq<map<nat, Data>>, qlog: seq<map<nat, Data>>)
    ensures Goes(State(BOTH, 5, 7, [LOAD], Submitted(NoFetch, Dev(0)), log), Memory(map[0 := Some([7])], qlog), Run,
                 State(BOTH, 5, 7, [], FRESH, log + [Holding(5)]), Memory(map[0 := Some([7])], qlog + [Holding(7)]))
  {
    var m := State(BOTH, 5, 7, [LOAD], Submitted(NoFetch, Dev(0)), log);
    StateOk(BOTH, 5, 7, m.queue, m.head, log);
    hide Ok;
    assert |GPUS| == 2;
    assert Touched(LOAD.op) == [0];
    assert [5][0..1] == [5] && [7][0..1] == [7];
    var q := Memory(map[0 := Some([7])], qlog);
    assert Value(q, 0, Found(m)) == [7];
    assert q.mem[0 := Some([7])] == q.mem;
  }

  lemma Prepend(m: Machine, q: Memory, a: Action, n: Machine, r: Memory, schedule: seq<Action>, m': Machine, q': Memory)
    requires Goes(m, q, a, n, r) && Leads(GPUS, n, r, schedule, m', q')
    ensures Leads(GPUS, m, q, [a] + schedule, m', q')
  {
    hide Enabled;
    hide Step;
    hide Follows;
    assert ([a] + schedule)[1..] == schedule;
  }

  lemma StartsHere()
    ensures Initial(GPUS, State({}, 0, 0, [FIVE, SEVEN, LOAD], FRESH, []), Memory(map[0 := None], []))
  {
    StateOk({}, 0, 0, [FIVE, SEVEN, LOAD], FRESH, []);
    hide Ok;
  }

  lemma NoMoves(m: Machine, q: Memory)
    ensures Leads(GPUS, m, q, [], m, q)
  {}

  lemma Logs(latest: set<Loc>, d0: int, d1: int, queue: seq<Command>, head: Head, log: seq<map<nat, Data>>)
    ensures State(latest, d0, d1, queue, head, log).log == log
  {}

  /** From the start the read on device 0 returns 5 where one memory would return 7: the
      device of the second kernel was only added to the latest set. */
  lemma StaleRead() returns (schedule: seq<Action>, m': Machine, q': Memory)
    ensures var m, q := State({}, 0, 0, [FIVE, SEVEN, LOAD], FRESH, []), Memory(map[0 := None], []);
            Initial(GPUS, m, q) && Leads(GPUS, m, q, schedule, m', q')
    ensures m'.log == [Holding(0), Holding(5), Holding(5)] && q'.log == [Holding(0), Holding(5), Holding(7)]
  {
    hide *;
    var a, b := [Holding(0)], [Holding(0), Holding(5)];
    assert [] + [Holding(0)] == a && a + [Holding(5)] == b;
    var none, five, seven := Memory(map[0 := None], []), Memory(map[0 := Some([5])], a), Memory(map[0 := Some([7])], b);
    assert [FIVE] + [SEVEN, LOAD] == [FIVE, SEVEN, LOAD] && [SEVEN] + [LOAD] == [SEVEN, LOAD];
    StartsHere();
    Shapes();
    m', q' := State(BOTH, 5, 7, [], FRESH, b + [Holding(5)]), Memory(map[0 := Some([7])], b + [Holding(7)]);
    Logs(BOTH, 5, 7, [], FRESH, b + [Holding(5)]);
    NoMoves(m', q');
    LoadRuns(b, b);
    Prepend(State(BOTH, 5, 7, [LOAD], Submitted(NoFetch, Dev(0)), b), seven, Run, m', q', [], m', q');
    LoadSubmits(b, seven);
    schedule := [Run] + [];
    Prepend(State(BOTH, 5, 7, [LOAD], FRESH, b), seven, Schedule(Device0), State(BOTH, 5, 7, [LOAD], Submitted(NoFetch, Dev(0)), b), seven, schedule, m', q');
    schedule := [Schedule(Device0)] + schedule;
    var two := [SEVEN, LOAD];
    KernelRuns(BOTH, 5, 5, SEVEN, 7, [LOAD], a, five);
    Prepend(State(BOTH, 5, 5, two, Submitted(NoFetch, Dev(1)), a), five, Run, State(BOTH, 5, 7, [LOAD], FRESH, b), seven, schedule, m', q');
    schedule := [Run] + schedule;
    SecondSubmits(a, five);
    Prepend(State(BOTH, 5, 5, two, THERE, a), five, Schedule(Device1), State(BOTH, 5, 5, two, Submitted(NoFetch, Dev(1)), a), five, schedule, m', q');
    schedule := [Schedule(Device1)] + schedule;
    CloneWrites(a, five);
    Prepend(State(BOTH, 5, 0, two, HELD, a), five, Clone(0), State(BOTH, 5, 5, two, THERE, a), five, schedule, m', q');
    schedule := [Clone(0)] + schedule;
    CloneReads(a, five);
    Prepend(State(BOTH, 5, 0, two, SENT, a), five, Clone(0), State(BOTH, 5, 0, two, HELD, a), five, schedule, m', q');
    schedule := [Clone(0)] + schedule;
    SecondWaits(a, five);
    Prepend(State({Dev(0)}, 5, 0, two, FRESH, a), five, Schedule(Device0), State(BOTH, 5, 0, two, SENT, a), five, schedule, m', q');
    schedule := [Schedule(Device0)] + schedule;
    KernelRuns({Dev(0)}, 0, 0, FIVE, 5, two, [], none);
    Prepend(State({Dev(0)}, 0, 0, [FIVE] + two, Submitted(NoFetch, Dev(0)), []), none, Run, State({Dev(0)}, 5, 0, two, FRESH, a), five, schedule, m', q');
    schedule := [Run] + schedule;
    FirstSubmits(none);
    Prepend(State({}, 0, 0, [FIVE] + two, FRESH, []), none, Schedule(Device0), State({Dev(0)}, 0, 0, [FIVE] + two, Submitted(NoFetch, Dev(0)), []), none, schedule, m', q');
    schedule := [Schedule(Device0)] + schedule;
  }

  lemma Shapes()
    ensures FIVE == Command(0, Kernel([0], Putting(5))) && SEVEN == Command(1, Kernel([0], Putting(7)))
    ensures Ours({Dev(0)}, [FIVE, SEVEN, LOAD]) && Ours(BOTH, [SEVEN, LOAD])
  {}
}
