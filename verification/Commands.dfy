/** Class CLCommand up to its submission, and the latest sets of class CLMem: the methods
    that change them in place do what the transition system says. */
module Commands {
  import opened Wrappers
  import opened Devices
  import opened Coherence
  import opened Sequential
  import opened Runs

  /** The memory objects, by number: their dev_latest_ are changed in place. */
  class Memories {
    var objs: Objects

    constructor (objs: Objects)
      ensures this.objs == objs
    {
      this.objs := objs;
    }

    predicate HasLatest(o: nat, l: Loc)
      requires o in objs
      reads this
    {
      l in objs[o].latest
    }

    predicate EmptyLatest(o: nat)
      requires o in objs
      reads this
    {
      objs[o].latest == {}
    }

    method AddLatest(o: nat, l: Loc)
      requires o in objs
      modifies this
      ensures objs == Coherence.AddLatest(old(objs), o, l)
    {
      objs := objs[o := objs[o].(latest := objs[o].latest + {l})];
    }

    method SetLatest(o: nat, l: Loc)
      requires o in objs
      modifies this
      ensures objs == Coherence.SetLatest(old(objs), o, l)
    {
      objs := objs[o := objs[o].(latest := {})];
      objs := objs[o := objs[o].(latest := objs[o].latest + {l})];
      var none: set<Loc> := {};
      assert none + {l} == {l};
      assert objs == Coherence.SetLatest(old(objs), o, l);
    }
  }

  /** The walk meets the host pointer and every device. */
  ghost predicate Covers(devs: seq<Device>, walk: seq<Loc>) { forall l | Known(devs, l) :: l in walk }

  /** What GetNearestLatest answers for each object. */
  ghost function NearAt(devs: seq<Device>, n: nat, objs: Objects, walk: seq<Loc>, o: nat): Loc {
    if n < |devs| && o in objs && forall k | k in objs[o].latest :: Known(devs, k) then
      match FirstNearest(devs, n, objs[o].latest, walk) case Some(l) => l case None => Host
    else Host
  }

  ghost function NearOf(devs: seq<Device>, n: nat, objs: Objects, walk: seq<Loc>): nat -> Loc {
    (o: nat) => NearAt(devs, n, objs, walk, o)
  }

  lemma NearIs(devs: seq<Device>, n: nat, objs: Objects, walk: seq<Loc>, o: nat)
    requires n < |devs| && o in objs && ObjectsOk(devs, objs) && Covers(devs, walk)
    ensures forall k | k in objs[o].latest :: Known(devs, k) && k in walk
    ensures objs[o].latest != {} ==>
              FirstNearest(devs, n, objs[o].latest, walk) == Some(NearAt(devs, n, objs, walk, o)) &&
              Nearest(devs, n, objs[o].latest, NearAt(devs, n, objs, walk, o))
  {
    assert ObjectOk(devs, objs[o]);
    FirstIsNearest(devs, n, objs[o].latest, walk);
  }

  lemma NearPlace(devs: seq<Device>, n: nat, objs: Objects, walk: seq<Loc>, o: nat)
    requires n < |devs| && ObjectsOk(devs, objs) && Covers(devs, walk)
    ensures Known(devs, NearAt(devs, n, objs, walk, o))
  {
    if o in objs {
      NearIs(devs, n, objs, walk, o);
      if objs[o].latest == {} { assert FirstNearest(devs, n, {}, walk).None?; }
    }
  }

  lemma NearChosen(devs: seq<Device>, n: nat, objs: Objects, walk: seq<Loc>)
    requires n < |devs| && ObjectsOk(devs, objs) && Covers(devs, walk)
    ensures NearestChoice(devs, objs, n, NearOf(devs, n, objs, walk))
  {
    var near := NearOf(devs, n, objs, walk);
    forall o ensures Known(devs, near(o)) { NearPlace(devs, n, objs, walk, o); }
    forall o | o in objs && objs[o].latest != {} ensures ObjectOk(devs, objs[o]) && Nearest(devs, n, objs[o].latest, near(o)) {
      NearIs(devs, n, objs, walk, o);
    }
  }

  /** What locating the arguments of a kernel leads to. */
  ghost predicate LocatedArgs(objs: Objects, args: seq<nat>, d: Loc, near: nat -> Loc, objs': Objects, clones: map<nat, Clone>) {
    (forall a | a in args :: a in objs) && LocateAll(objs, map[], args, d, near) == (objs', clones)
  }

  lemma LocateStart(devs: seq<Device>, n: nat, walk: seq<Loc>, device: Loc, source: Loc, objs: Objects, op: Op, near: nat -> Loc)
    requires InOrder(devs, n, walk, device, source, objs, op) && op.Kernel?
    ensures forall i :: 0 <= i < |op.args| ==> op.args[i] in objs
    ensures LocatedArgs(objs, op.args[..0], device, near, objs, map[])
  {
    assert Touched(op) == op.args;
  }

  /** The next argument of a kernel: not yet located, it is as it was at first. */
  lemma LocateNext(objs: Objects, args: seq<nat>, i: nat, d: Loc, near: nat -> Loc, now: Objects, clones: map<nat, Clone>)
    requires i < |args| && args[i] in objs && LocatedArgs(objs, args[..i], d, near, now, clones)
    ensures var a := args[i];
            && a in now && (!Located(now, a, d) ==> now[a] == objs[a])
            && (Located(now, a, d) ==> LocatedArgs(objs, args[..i + 1], d, near, now, clones))
            && (!Located(now, a, d) ==> LocatedArgs(objs, args[..i + 1], d, near, Coherence.AddLatest(now, a, d), clones[a := Ordered(near(a))]))
  {
    assert args[..i + 1][..i] == args[..i];
    LocateAllIs(objs, args[..i], d, near, args[i]);
  }

  lemma NotEmpty(clones: map<nat, Clone>, o: nat)
    requires o in clones
    ensures clones != map[]
  {}

  lemma NearSame(devs: seq<Device>, n: nat, objs: Objects, now: Objects, walk: seq<Loc>, o: nat)
    ensures o in objs && o in now && objs[o] == now[o] ==> NearAt(devs, n, now, walk, o) == NearOf(devs, n, objs, walk)(o)
  {}

  lemma UpdateNext(objs: Objects, args: seq<nat>, i: nat, d: Loc)
    requires (forall a | a in args :: a in objs) && i < |args|
    ensures var r := UpdateAll(objs, args[..i], d);
            UpdateAll(objs, args[..i + 1], d) ==
            if r[args[i]].flags.Writable() then Coherence.SetLatest(r, args[i], d) else Coherence.AddLatest(r, args[i], d)
  {
    assert args[..i + 1][..i] == args[..i];
  }

  /** The flags of GetCopyPattern, as its table lists them. */
  datatype CopyFlags = CopyFlags(read: bool, write: bool, copy: bool, send: bool, recv: bool, rcopy: bool, alloc: bool, useHost: bool)

  function Required(p: Pattern): CopyFlags {
    match p
    case CopyIt => CopyFlags(false, false, true, false, false, false, false, false)
    case WriteFromHost => CopyFlags(false, true, false, false, false, false, false, true)
    case ReadThenWrite => CopyFlags(true, true, false, false, false, false, true, false)
    case ClusterCopy => CopyFlags(false, false, false, false, false, true, false, false)
    case SendReceive => CopyFlags(false, false, false, true, true, false, false, false)
  }

  /** The devices and places a command refers to exist, and its objects are in order. */
  ghost predicate InOrder(devs: seq<Device>, n: nat, walk: seq<Loc>, device: Loc, source: Loc, objs: Objects, op: Op) {
    && n < |devs| && Covers(devs, walk) && Known(devs, device) && Known(devs, source)
    && ObjectsOk(devs, objs) && Names(objs, op)
  }

  lemma InOrderAdd(devs: seq<Device>, n: nat, walk: seq<Loc>, device: Loc, source: Loc, objs: Objects, op: Op, o: nat)
    requires InOrder(devs, n, walk, device, source, objs, op) && o in objs
    ensures InOrder(devs, n, walk, device, source, AddLatest(objs, o, device), op)
  {
    var objs' := AddLatest(objs, o, device);
    forall p | p in objs' ensures ObjectOk(devs, objs'[p]) { assert ObjectOk(devs, objs[p]); }
  }

  /** What ResolveConsistencyOfCopyMem leads to. */
  ghost predicate CopyResolved(devs: seq<Device>, n: nat, objs: Objects, op: Op, near: nat -> Loc, objs': Objects, clones: map<nat, Clone>,
                               source: Loc, fetch: Fetch, was: bool, resolved: bool, already: bool) {
    && n < |devs| && op.Copy? && op.src in objs && op.dst in objs && Known(devs, source)
    && var d := Dev(n);
       if !Located(objs, op.src, d) && near(op.src) == Host then
         !already && objs' == AddLatest(objs, op.src, d) && clones == map[op.src := Ordered(Host)] && resolved == was && fetch == NoFetch
       else
         resolved && source == (if Located(objs, op.src, d) then d else near(op.src)) && CopyOrdered(devs, n, objs, op, near, objs', clones, source, fetch, already)
  }

  /** The part after the source has been found. */
  ghost predicate CopyOrdered(devs: seq<Device>, n: nat, objs: Objects, op: Op, near: nat -> Loc, objs': Objects, clones: map<nat, Clone>,
                              source: Loc, fetch: Fetch, already: bool)
    requires n < |devs| && op.Copy? && op.src in objs && op.dst in objs && Known(devs, source)
  {
    var d, t, pattern := Dev(n), op.dst, CopyPattern(devs, source, n);
    var here := WholeObject(objs, t, op.off, op.count) || Located(objs, t, d);
    && objs' == (if here then objs else AddLatest(objs, t, d))
    && clones == (if here then map[] else map[t := Ordered(near(t))])
    && fetch == Feeding(pattern, source)
    && already == (here && !pattern.ReadThenWrite?)
  }

  lemma CopyNames(devs: seq<Device>, n: nat, walk: seq<Loc>, device: Loc, source: Loc, objs: Objects, op: Op)
    requires InOrder(devs, n, walk, device, source, objs, op) && op.Copy?
    ensures n < |devs| && op.src in objs && op.dst in objs && Known(devs, source)
  {
    assert op.src in Touched(op) && op.dst in Touched(op);
  }

  lemma CopyRefused(devs: seq<Device>, n: nat, objs: Objects, op: Op, near: nat -> Loc, objs': Objects, clones: map<nat, Clone>, source: Loc, was: bool)
    requires n < |devs| && op.Copy? && op.src in objs && op.dst in objs && Known(devs, source)
    requires !Located(objs, op.src, Dev(n)) && near(op.src) == Host && objs' == AddLatest(objs, op.src, Dev(n)) && clones == map[op.src := Ordered(Host)]
    ensures CopyResolved(devs, n, objs, op, near, objs', clones, source, NoFetch, was, was, false)
  {}

  lemma CopyFound(devs: seq<Device>, n: nat, objs: Objects, op: Op, near: nat -> Loc, objs': Objects, clones: map<nat, Clone>,
                  source: Loc, fetch: Fetch, was: bool, located: bool, already: bool)
    requires n < |devs| && op.Copy? && op.src in objs && op.dst in objs && Known(devs, source)
    requires if Located(objs, op.src, Dev(n)) then source == Dev(n) else source == near(op.src) && near(op.src) != Host
    requires located == (WholeObject(objs, op.dst, op.off, op.count) || Located(objs, op.dst, Dev(n)))
    requires located ==> objs' == objs && clones == map[]
    requires !located ==> objs' == AddLatest(objs, op.dst, Dev(n)) && clones == map[op.dst := Ordered(near(op.dst))]
    requires var f := Required(CopyPattern(devs, source, n));
             fetch == (if f.read || f.send then Wanted(source, f.read && f.write) else NoFetch) && already == (located && !(f.read && f.write))
    ensures CopyResolved(devs, n, objs, op, near, objs', clones, source, fetch, was, true, already)
  {
    hide AddLatest;
    hide Located;
    hide WholeObject;
  }

  /** The Update family. */
  function Updated(objs: Objects, op: Op, at: Loc): Objects
    requires forall a | a in Touched(op) :: a in objs
  {
    match op
    case Kernel(args, _) => UpdateAll(objs, args, at)
    case Read(o, _, _) => AddLatest(objs, o, at)
    case Write(o, _, _) => SetLatest(objs, o, at)
    case Fill(o, _, _) => SetLatest(objs, o, at)
    case Copy(_, t, _, _, _) => SetLatest(objs, t, at)
  }

  /** Answer and fields after a call of ResolveConsistency are those of the transition
      system. at is where a read or a copy takes its data from. */
  ghost predicate Agrees(devs: seq<Device>, m: Machine, near: nat -> Loc, ok: bool, objs: Objects, clones: map<nat, Clone>, resolved: bool, fetch: Fetch, at: Loc) {
    && Peeked(m) && m.queue[0].dev < |devs| && Names(m.objs, m.queue[0].op) && ObjectsOk(devs, m.objs)
    && NearestChoice(devs, m.objs, m.queue[0].dev, near)
    && var n := Resolve(devs, m, near);
       && n.objs == objs && n.queue == m.queue && n.log == m.log && n.head.fetch == fetch
       && if ok then n.head.Submitted? && n.head.source == at
          else
            && n.head.Resolving? && n.head.clones == clones && n.head.resolved == resolved && n.head.refusals == m.head.refusals + 1
            && (m.queue[0].op.Copy? && resolved ==> n.head.source == at)
  }

  /** The command at the head, about to be resolved with these places. */
  ghost predicate Asked(devs: seq<Device>, m: Machine, near: nat -> Loc) {
    && Peeked(m) && m.queue[0].dev < |devs| && Names(m.objs, m.queue[0].op) && ObjectsOk(devs, m.objs)
    && NearestChoice(devs, m.objs, m.queue[0].dev, near) && (!m.head.resolved ==> m.head.fetch == NoFetch)
  }

  lemma AgainAgrees(devs: seq<Device>, m: Machine, near: nat -> Loc, at: Loc)
    requires Asked(devs, m, near) && m.head.resolved && m.head.source == (if m.queue[0].op.Copy? then at else Dev(m.queue[0].dev))
    requires !m.queue[0].op.Copy? ==> at == Dev(m.queue[0].dev)
    ensures Agrees(devs, m, near, true, Updated(m.objs, m.queue[0].op, Dev(m.queue[0].dev)), map[], true, m.head.fetch, at)
  {
    hide NearestChoice;
    hide ObjectsOk;
  }

  lemma KernelAgrees(devs: seq<Device>, m: Machine, near: nat -> Loc, objs: Objects, clones: map<nat, Clone>)
    requires Asked(devs, m, near) && !m.head.resolved && m.queue[0].op.Kernel?
    requires LocatedArgs(m.objs, m.queue[0].op.args, Dev(m.queue[0].dev), near, objs, clones)
    ensures objs.Keys == m.objs.Keys
    ensures var d := Dev(m.queue[0].dev); forall a | a in Touched(m.queue[0].op) :: a in objs
    ensures var d := Dev(m.queue[0].dev);
            if clones == map[] then Agrees(devs, m, near, true, Updated(objs, m.queue[0].op, d), clones, true, NoFetch, d)
            else Agrees(devs, m, near, false, objs, clones, true, NoFetch, d)
  {
    hide ObjectsOk;
  }

  lemma ReadAgrees(devs: seq<Device>, m: Machine, near: nat -> Loc, already: bool, at: Loc, objs: Objects, clones: map<nat, Clone>)
    requires Asked(devs, m, near) && !m.head.resolved && m.queue[0].op.Read?
    requires m.queue[0].op.obj in m.objs
    requires var o, d := m.queue[0].op.obj, Dev(m.queue[0].dev);
             && (if Located(m.objs, o, d) then already && at == d else if near(o) == Host then !already && at == d else already && at == near(o))
             && (already ==> objs == m.objs && clones == map[])
             && (!already ==> objs == AddLatest(m.objs, o, d) && clones == map[o := Ordered(Host)])
    ensures (forall a | a in Touched(m.queue[0].op) :: a in objs)
    ensures if already then Agrees(devs, m, near, true, Updated(objs, m.queue[0].op, at), clones, true, NoFetch, at)
            else Agrees(devs, m, near, false, objs, clones, true, NoFetch, at)
  {
    hide ObjectsOk;
    hide Located;
  }

  /** Writes and fills; a fill counts as one of the whole object. */
  lemma WriteAgrees(devs: seq<Device>, m: Machine, near: nat -> Loc, already: bool, objs: Objects, clones: map<nat, Clone>)
    requires Asked(devs, m, near) && !m.head.resolved && (m.queue[0].op.Write? || m.queue[0].op.Fill?) && m.queue[0].op.obj in m.objs
    requires var op, o, d := m.queue[0].op, m.queue[0].op.obj, Dev(m.queue[0].dev);
             && already == (op.Fill? || WholeObject(m.objs, o, op.off, |op.data|) || Located(m.objs, o, d))
             && (already ==> objs == m.objs && clones == map[])
             && (!already ==> objs == AddLatest(m.objs, o, d) && clones == map[o := Ordered(near(o))])
    ensures (forall a | a in Touched(m.queue[0].op) :: a in objs)
    ensures var d := Dev(m.queue[0].dev);
            if already then Agrees(devs, m, near, true, Updated(objs, m.queue[0].op, d), clones, true, NoFetch, d)
            else Agrees(devs, m, near, false, objs, clones, true, NoFetch, d)
  {
    hide ObjectsOk;
    hide Located;
    hide WholeObject;
  }

  lemma CopyAgrees(devs: seq<Device>, m: Machine, near: nat -> Loc, objs: Objects, clones: map<nat, Clone>, source: Loc, fetch: Fetch, resolved: bool, already: bool)
    requires Asked(devs, m, near) && !m.head.resolved && m.queue[0].op.Copy?
    requires CopyResolved(devs, m.queue[0].dev, m.objs, m.queue[0].op, near, objs, clones, source, fetch, false, resolved, already)
    ensures (forall a | a in Touched(m.queue[0].op) :: a in objs)
    ensures var d := Dev(m.queue[0].dev);
            if already then Agrees(devs, m, near, true, Updated(objs, m.queue[0].op, d), clones, resolved, fetch, source)
            else Agrees(devs, m, near, false, objs, clones, resolved, fetch, source)
  {
    hide ObjectsOk;
    hide Located;
    hide WholeObject;
    hide CopyPattern;
  }

  class Command {
    const devs: seq<Device>
    const queueDevice: nat
    const op: Op
    const memories: Memories
    /** The order in which the latest set is walked. */
    const walk: seq<Loc>
    /** device_ */
    var device: Loc
    /** Where a copy takes its data from. */
    var source: Loc
    /** consistency_resolved_ */
    var resolved: bool
    /** The clones that wait_events_ stands for. */
    var clones: map<nat, Clone>
    /** The read that feeds a copy. */
    var fetch: Fetch

    ghost predicate Valid()
      reads this`device, this`source, memories
    {
      InOrder(devs, queueDevice, walk, device, source, memories.objs, op)
    }

    constructor (devs: seq<Device>, queueDevice: nat, op: Op, memories: Memories, walk: seq<Loc>)
      requires queueDevice < |devs| && Covers(devs, walk) && ObjectsOk(devs, memories.objs) && Names(memories.objs, op)
      ensures Valid() && this.devs == devs && this.queueDevice == queueDevice && this.op == op && this.memories == memories && this.walk == walk
      ensures !resolved && clones == map[] && fetch == NoFetch && source == Host
    {
      this.devs, this.queueDevice, this.op, this.memories, this.walk := devs, queueDevice, op, memories, walk;
      device, source, resolved, clones, fetch := Dev(queueDevice), Host, false, map[], NoFetch;
    }

    method GetCopyPattern(src: Loc, dst: nat) returns (f: CopyFlags)
      requires Known(devs, src) && dst < |devs|
      ensures f == Required(CopyPattern(devs, src, dst))
      ensures f.copy <==> src == Dev(dst) || (src.Dev? && devs[src.n].context.Some? && devs[src.n].context == devs[dst].context)
      ensures f.useHost <==> src == Host
      ensures f.send == f.recv && (f.send <==> src.Dev? && !f.copy && devs[src.n].node != devs[dst].node)
      ensures f.rcopy <==> src.Dev? && !f.copy && devs[src.n].node == devs[dst].node != 0
      ensures f.read == f.alloc && (f.read <==> src.Dev? && !f.copy && devs[src.n].node == devs[dst].node == 0)
      ensures f.write <==> f.read || src == Host
    {
      f := CopyFlags(false, false, false, false, false, false, false, false);
      if src.Dev? && devs[src.n].context == devs[dst].context && devs[src.n].context.Some? {
        f := f.(copy := true);
      } else if src == Dev(dst) {
        f := f.(copy := true);
      } else if src == Host {
        f := f.(write := true);
        f := f.(useHost := true);
      } else if devs[src.n].node == devs[dst].node {
        if devs[src.n].node == 0 {
          f := f.(read := true);
          f := f.(write := true);
          f := f.(alloc := true);
        } else {
          f := f.(rcopy := true);
        }
      } else {
        f := f.(send := true);
        f := f.(recv := true);
      }
    }

    method AccessMemOnDevice(o: nat, write: bool)
      requires o in memories.objs
      modifies memories
      ensures memories.objs == if write then SetLatest(old(memories.objs), o, device) else AddLatest(old(memories.objs), o, device)
    {
      if write { memories.SetLatest(o, device); } else { memories.AddLatest(o, device); }
    }

    /** CloneMem, and AddWaitEvent for it: the clone is on its way, but counts already. */
    method CloneMem(src: Loc, o: nat)
      requires o in memories.objs
      modifies memories, this`clones
      ensures memories.objs == AddLatest(old(memories.objs), o, device) && clones == old(clones)[o := Ordered(src)]
    {
      memories.AddLatest(o, device);
      clones := clones[o := Ordered(src)];
    }

    /** Orders a clone to device_ unless that has the latest contents, or nothing has. */
    method LocateMemOnDevice(o: nat) returns (located: bool)
      requires Valid() && o in memories.objs && device.Dev?
      modifies memories, this`clones
      ensures Valid() && memories.objs.Keys == old(memories.objs.Keys)
      ensures located == Located(old(memories.objs), o, device)
      ensures located ==> memories.objs == old(memories.objs) && clones == old(clones)
      ensures !located ==> memories.objs == AddLatest(old(memories.objs), o, device)
      ensures !located ==> clones == old(clones)[o := Ordered(NearAt(devs, device.n, old(memories.objs), walk, o))]
    {
      hide ObjectsOk;
      hide Covers;
      InOrderAdd(devs, queueDevice, walk, device, source, memories.objs, op, o);
      if memories.HasLatest(o, device) || memories.EmptyLatest(o) { return true; }
      NearIs(devs, device.n, memories.objs, walk, o);
      hide NearAt;
      var nearest := GetNearestLatest(devs, device.n, memories.objs[o].latest, walk);
      CloneMem(nearest.value, o);
      located := false;
    }

    /** Looks for a place to read from: device if it will do, or else the nearest, which
        if it is the host pointer has to be cloned to device first. */
    method ChangeDeviceToReadMem(o: nat, at: Loc) returns (located: bool, device': Loc)
      requires Valid() && o in memories.objs && at == device && device.Dev?
      modifies memories, this`clones
      ensures InOrder(devs, queueDevice, walk, device, device', memories.objs, op) && InOrder(devs, queueDevice, walk, device', source, memories.objs, op)
      ensures Valid() && memories.objs.Keys == old(memories.objs.Keys) && Known(devs, device')
      ensures var near := NearAt(devs, device.n, old(memories.objs), walk, o);
              if Located(old(memories.objs), o, device) then located && device' == device
              else if near == Host then !located && device' == device
              else located && device' == near
      ensures located ==> memories.objs == old(memories.objs) && clones == old(clones)
      ensures !located ==> memories.objs == AddLatest(old(memories.objs), o, device) && clones == old(clones)[o := Ordered(Host)]
    {
      hide ObjectsOk;
      hide Covers;
      InOrderAdd(devs, queueDevice, walk, device, source, memories.objs, op, o);
      device' := at;
      if memories.HasLatest(o, at) || memories.EmptyLatest(o) { return true, at; }
      NearIs(devs, device.n, memories.objs, walk, o);
      hide NearAt;
      var nearest := GetNearestLatest(devs, device.n, memories.objs[o].latest, walk);
      if nearest.value == Host {
        CloneMem(Host, o);
        return false, at;
      }
      located, device' := true, nearest.value;
    }

    lemma KernelStart()
      requires Valid() && op.Kernel?
      ensures forall i :: 0 <= i < |op.args| ==> op.args[i] in memories.objs
      ensures LocatedArgs(memories.objs, op.args[..0], device, NearOf(devs, queueDevice, memories.objs, walk), memories.objs, map[])
    {
      LocateStart(devs, queueDevice, walk, device, source, memories.objs, op, NearOf(devs, queueDevice, memories.objs, walk));
    }

    method ResolveConsistencyOfLaunchKernel() returns (already: bool)
      requires Valid() && op.Kernel? && device == Dev(queueDevice) && clones == map[]
      modifies memories, this`clones, this`resolved
      ensures Valid() && resolved && (already <==> clones == map[])
      ensures LocatedArgs(old(memories.objs), op.args, device, NearOf(devs, queueDevice, old(memories.objs), walk), memories.objs, clones)
    {
      hide *;
      ghost var objs, near := memories.objs, NearOf(devs, queueDevice, memories.objs, walk);
      KernelStart();
      already := true;
      for i := 0 to |op.args|
        modifies memories, this`clones
        invariant Valid() && (already <==> clones == map[])
        invariant LocatedArgs(objs, op.args[..i], device, near, memories.objs, clones)
      {
        LocateNext(objs, op.args, i, device, near, memories.objs, clones);
        NearSame(devs, queueDevice, objs, memories.objs, walk, op.args[i]);
        var located := LocateMemOnDevice(op.args[i]);
        if !located { NotEmpty(clones, op.args[i]); }
        already := already && located;
      }
      assert op.args[..|op.args|] == op.args;
      resolved := true;
    }

    method ResolveConsistencyOfReadMem(o: nat) returns (already: bool)
      requires Valid() && o in memories.objs && device == Dev(queueDevice) && clones == map[]
      modifies memories, this`clones, this`resolved, this`device
      ensures Valid()
      ensures resolved
      ensures var d, near := old(device), NearAt(devs, queueDevice, old(memories.objs), walk, o);
              if Located(old(memories.objs), o, d) then already && device == d
              else if near == Host then !already && device == d
              else already && device == near
      ensures already ==> memories.objs == old(memories.objs) && clones == old(clones)
      ensures !already ==> memories.objs == AddLatest(old(memories.objs), o, old(device)) && clones == map[o := Ordered(Host)]
    {
      hide *;
      already, device := ChangeDeviceToReadMem(o, device);
      InPlace();
      resolved := true;
    }

    method ResolveConsistencyOfWriteMem(o: nat, writeAll: bool) returns (already: bool)
      requires Valid() && o in memories.objs && device == Dev(queueDevice) && clones == map[]
      modifies memories, this`clones, this`resolved
      ensures Valid()
      ensures resolved && already == (writeAll || Located(old(memories.objs), o, device))
      ensures already ==> memories.objs == old(memories.objs) && clones == old(clones)
      ensures !already ==> memories.objs == AddLatest(old(memories.objs), o, device)
      ensures !already ==> clones == map[o := Ordered(NearAt(devs, queueDevice, old(memories.objs), walk, o))]
    {
      already := true;
      if !writeAll { already := LocateMemOnDevice(o); }
      resolved := true;
    }

    lemma CopyParts()
      requires Valid() && op.Copy?
      ensures queueDevice < |devs| && op.src in memories.objs && op.dst in memories.objs && Known(devs, source)
    {
      CopyNames(devs, queueDevice, walk, device, source, memories.objs, op);
    }

    lemma InPlace()
      requires InOrder(devs, queueDevice, walk, device, source, memories.objs, op)
      ensures Valid()
    {}

    method ResolveConsistencyOfCopyMem() returns (already: bool)
      requires Valid() && op.Copy? && device == Dev(queueDevice) && clones == map[] && fetch == NoFetch
      modifies memories, this`clones, this`resolved, this`source, this`fetch
      ensures Valid()
      ensures CopyResolved(devs, queueDevice, old(memories.objs), op, NearOf(devs, queueDevice, old(memories.objs), walk),
                           memories.objs, clones, source, fetch, old(resolved), resolved, already)
    {
      hide *;
      CopyParts();
      ghost var objs, was, near := memories.objs, resolved, NearOf(devs, queueDevice, memories.objs, walk);
      NearSame(devs, queueDevice, objs, objs, walk, op.src);
      NearSame(devs, queueDevice, objs, objs, walk, op.dst);
      var found, from := ChangeDeviceToReadMem(op.src, device);
      if !found {
        CopyRefused(devs, queueDevice, objs, op, near, memories.objs, clones, source, was);
        return false;
      }
      source := from;
      InPlace();
      already := true;
      var here := WholeObject(memories.objs, op.dst, op.off, op.count);
      if !here { already := LocateMemOnDevice(op.dst); }
      ghost var located := already;
      var f := GetCopyPattern(source, queueDevice);
      if f.read || f.send { fetch := Wanted(source, f.read && f.write); }
      if f.read && f.write { already := false; }
      resolved := true;
      CopyFound(devs, queueDevice, objs, op, near, memories.objs, clones, source, fetch, was, located, already);
    }

    method UpdateConsistency()
      requires Valid() && forall a | a in Touched(op) :: a in memories.objs
      modifies memories
      ensures memories.objs == Updated(old(memories.objs), op, device)
    {
      match op
      case Kernel(args, _) =>
        ghost var objs := memories.objs;
        for i := 0 to |args|
          modifies memories
          invariant memories.objs == UpdateAll(objs, args[..i], device)
        {
          UpdateNext(objs, args, i, device);
          AccessMemOnDevice(args[i], memories.objs[args[i]].flags.Writable());
        }
        assert args[..|args|] == args;
      case Read(o, _, _) => AccessMemOnDevice(o, false);
      case Write(o, _, _) => AccessMemOnDevice(o, true);
      case Fill(o, _, _) => AccessMemOnDevice(o, true);
      case Copy(_, t, _, _, _) => AccessMemOnDevice(t, true);
    }

    /** The command is the head of queue machine m, and the fields are those of m. */
    ghost predicate Heads(m: Machine)
      reads this, memories
    {
      && Valid() && Peeked(m) && m.queue[0] == Coherence.Command(queueDevice, op) && m.objs == memories.objs
      && m.head.resolved == resolved && m.head.fetch == fetch && clones == map[] && (!resolved ==> fetch == NoFetch)
      && (resolved ==> m.head.source == if op.Copy? then source else Dev(queueDevice))
    }

    /** One call of it did what the transition system does. */
    ghost predicate Done(m: Machine, ok: bool)
      reads this, memories
    {
      Agrees(devs, m, NearOf(devs, queueDevice, m.objs, walk), ok, memories.objs, clones, resolved, fetch, if op.Copy? then source else device)
    }

    lemma HeadsAsked(m: Machine)
      requires Heads(m)
      ensures Asked(devs, m, NearOf(devs, queueDevice, m.objs, walk)) && Valid()
      ensures m.queue[0].dev == queueDevice && m.queue[0].op == op && m.objs == memories.objs && clones == map[]
      ensures m.head.resolved == resolved && m.head.fetch == fetch && (!resolved ==> fetch == NoFetch)
      ensures resolved ==> m.head.source == if op.Copy? then source else Dev(queueDevice)
      ensures forall a | a in Touched(op) :: a in m.objs
      ensures !op.Kernel? && !op.Copy? ==> op.obj in m.objs
    {
      NearChosen(devs, queueDevice, m.objs, walk);
      hide NearestChoice;
      hide ObjectsOk;
      hide NearOf;
      assert !op.Kernel? && !op.Copy? ==> op.obj in Touched(op);
    }

    lemma DoneIs(m: Machine, ok: bool)
      requires Agrees(devs, m, NearOf(devs, queueDevice, m.objs, walk), ok, memories.objs, clones, resolved, fetch, if op.Copy? then source else device)
      ensures Done(m, ok)
    {
      hide Agrees;
    }

    method ResolveKernel(ghost m: Machine) returns (ok: bool)
      requires Heads(m) && !resolved && op.Kernel? && device == Dev(queueDevice)
      modifies this, memories
      ensures Done(m, ok)
    {
      HeadsAsked(m);
      hide *;
      ghost var near := NearOf(devs, queueDevice, m.objs, walk);
      ok := ResolveConsistencyOfLaunchKernel();
      KernelAgrees(devs, m, near, memories.objs, clones);
      if ok { UpdateConsistency(); }
      DoneIs(m, ok);
    }

    method ResolveRead(ghost m: Machine) returns (ok: bool)
      requires Heads(m) && !resolved && op.Read? && device == Dev(queueDevice)
      modifies this, memories
      ensures Done(m, ok)
    {
      HeadsAsked(m);
      hide *;
      ghost var near := NearOf(devs, queueDevice, m.objs, walk);
      NearSame(devs, queueDevice, m.objs, m.objs, walk, op.obj);
      ok := ResolveConsistencyOfReadMem(op.obj);
      ReadAgrees(devs, m, near, ok, device, memories.objs, clones);
      if ok { UpdateConsistency(); }
      DoneIs(m, ok);
    }

    /** Also a fill. */
    method ResolveWrite(ghost m: Machine) returns (ok: bool)
      requires Heads(m) && !resolved && (op.Write? || op.Fill?) && device == Dev(queueDevice)
      modifies this, memories
      ensures Done(m, ok)
    {
      HeadsAsked(m);
      hide *;
      ghost var near := NearOf(devs, queueDevice, m.objs, walk);
      NearSame(devs, queueDevice, m.objs, m.objs, walk, op.obj);
      ok := ResolveConsistencyOfWriteMem(op.obj, op.Fill? || WholeObject(memories.objs, op.obj, op.off, |op.data|));
      WriteAgrees(devs, m, near, ok, memories.objs, clones);
      if ok { UpdateConsistency(); }
      DoneIs(m, ok);
    }

    method ResolveCopy(ghost m: Machine) returns (ok: bool)
      requires Heads(m) && !resolved && op.Copy? && device == Dev(queueDevice)
      modifies this, memories
      ensures Done(m, ok)
    {
      HeadsAsked(m);
      hide *;
      ghost var near := NearOf(devs, queueDevice, m.objs, walk);
      ok := ResolveConsistencyOfCopyMem();
      CopyAgrees(devs, m, near, memories.objs, clones, source, fetch, resolved, ok);
      if ok { UpdateConsistency(); }
      DoneIs(m, ok);
    }

    method ResolveConsistency(ghost m: Machine) returns (ok: bool)
      requires Heads(m)
      modifies this, memories
      ensures Done(m, ok)
    {
      HeadsAsked(m);
      device := Dev(queueDevice);
      hide *;
      ghost var near := NearOf(devs, queueDevice, m.objs, walk);
      if resolved {
        AgainAgrees(devs, m, near, if op.Copy? then source else device);
        UpdateConsistency();
        DoneIs(m, true);
        return true;
      }
      match op
      case Kernel(_, _) => ok := ResolveKernel(m);
      case Read(_, _, _) => ok := ResolveRead(m);
      case Write(_, _, _) => ok := ResolveWrite(m);
      case Fill(_, _, _) => ok := ResolveWrite(m);
      case Copy(_, _, _, _, _) => ok := ResolveCopy(m);
    }
  }
}
