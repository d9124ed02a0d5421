/** Consistency of memory objects between devices: CLCommand::ResolveConsistency and
    its families, run by the scheduler on one in-order queue. */
module Coherence {
  import opened Wrappers
  import opened Devices

  type Data = seq<int>

  /** The access flags of a memory object; other stands for any further flag. */
  datatype Flags = Flags(readWrite: bool, readOnly: bool, writeOnly: bool, other: bool) {
    /** CLMem::IsWritable */
    predicate Writable() { readWrite || writeOnly }

    /** flags() == CL_MEM_READ_ONLY */
    predicate OnlyReadOnly() { readOnly && !readWrite && !writeOnly && !other }
  }

  /** latest is dev_latest_; copies has the contents at every place. */
  datatype Object = Object(flags: Flags, size: nat, latest: set<Loc>, copies: map<Loc, Data>)

  type Objects = map<nat, Object>

  datatype Op =
    | Kernel(args: seq<nat>, run: map<nat, Data> -> map<nat, Data>)
    | Read(obj: nat, off: nat, count: nat)
    | Write(obj: nat, off: nat, data: Data)
    | Fill(obj: nat, off: nat, data: Data)
    | Copy(src: nat, dst: nat, from: nat, off: nat, count: nat)

  /** An operation and the device of its queue. */
  datatype Command = Command(dev: nat, op: Op)

  /** A clone on its way: ordered, or read and not yet written. */
  datatype Clone = Ordered(from: Loc) | Carried(from: Loc, data: Data)

  /** The read that feeds a copy through a buffer; awaited if the copy has its event in
      its wait list. A read that sends to another node is not. */
  datatype Fetch = NoFetch | Wanted(from: Loc, awaited: bool) | Fetched(data: Data)

  /** State of the command at the head of the queue. Clones go to its device; its
      events are complete when no clone is left. refusals counts the times
      ResolveConsistency has answered false. */
  datatype Head =
    | Resolving(resolved: bool, refusals: nat, clones: map<nat, Clone>, fetch: Fetch, source: Loc)
    | Submitted(fetch: Fetch, source: Loc)

  const FRESH := Resolving(false, 0, map[], NoFetch, Host)

  /** log: what reads returned and what kernels found in their arguments. */
  datatype Machine = Machine(objs: Objects, queue: seq<Command>, head: Head, log: seq<map<nat, Data>>)

  /** data put over d from off on. */
  function Splice(d: Data, off: nat, data: Data): (r: Data)
    requires off + |data| <= |d|
    ensures |r| == |d|
  {
    d[..off] + data + d[off + |data|..]
  }

  ghost predicate ObjectOk(devs: seq<Device>, ob: Object) {
    && (forall l :: l in ob.copies <==> Known(devs, l))
    && (forall l | l in ob.copies :: |ob.copies[l]| == ob.size)
    && (forall l | l in ob.latest :: Known(devs, l))
  }

  ghost predicate ObjectsOk(devs: seq<Device>, objs: Objects) {
    forall o | o in objs :: ObjectOk(devs, objs[o])
  }

  /** A command the API would accept: known objects, ranges inside them, and a kernel
      that neither grows nor shrinks its arguments. */
  ghost predicate CommandOk(devs: seq<Device>, objs: Objects, c: Command) {
    && c.dev < |devs|
    && match c.op
       case Kernel(args, run) =>
         && (forall a | a in args :: a in objs)
         && (forall ins: map<nat, Data> | Fits(objs, args, ins) :: Fits(objs, args, run(ins)))
       case Read(o, off, count) => o in objs && off + count <= objs[o].size
       case Write(o, off, data) => o in objs && off + |data| <= objs[o].size
       case Fill(o, off, data) => o in objs && off + |data| <= objs[o].size
       case Copy(s, t, from, off, count) => s in objs && t in objs && from + count <= objs[s].size && off + count <= objs[t].size
  }

  /** ins has contents of the right size for each argument. */
  ghost predicate Fits(objs: Objects, args: seq<nat>, ins: map<nat, Data>) {
    && (forall a :: a in ins <==> a in args)
    && (forall a | a in args :: a in objs && |ins[a]| == objs[a].size)
  }

  ghost predicate Ok(devs: seq<Device>, m: Machine) {
    ObjectsOk(devs, m.objs) && forall i :: 0 <= i < |m.queue| ==> CommandOk(devs, m.objs, m.queue[i])
  }

  predicate WholeObject(objs: Objects, o: nat, off: nat, count: nat)
    requires o in objs
  {
    off == 0 && count == objs[o].size
  }

  /** CLMem::AddLatest and CLMem::SetLatest */
  function AddLatest(objs: Objects, o: nat, l: Loc): Objects
    requires o in objs
  {
    objs[o := objs[o].(latest := objs[o].latest + {l})]
  }

  function SetLatest(objs: Objects, o: nat, l: Loc): Objects
    requires o in objs
  {
    objs[o := objs[o].(latest := {l})]
  }

  /** LocateMemOnDevice: true if no clone is needed. */
  function Located(objs: Objects, o: nat, d: Loc): bool
    requires o in objs
  {
    d in objs[o].latest || objs[o].latest == {}
  }

  /** LocateMemOnDevice for each of the first n arguments: new latest sets and clones.
      near is the nearest latest place of each object. */
  function LocateAll(objs: Objects, clones: map<nat, Clone>, args: seq<nat>, d: Loc, near: nat -> Loc): (r: (Objects, map<nat, Clone>))
    requires forall a | a in args :: a in objs
    ensures r.0.Keys == objs.Keys && r.1.Keys <= clones.Keys + objs.Keys
  {
    if args == [] then (objs, clones) else
      var n := |args| - 1;
      var r := LocateAll(objs, clones, args[..n], d, near);
      if Located(r.0, args[n], d) then r
      else (AddLatest(r.0, args[n], d), r.1[args[n] := Ordered(near(args[n]))])
  }

  /** UpdateConsistencyOfLaunchKernel */
  function UpdateAll(objs: Objects, args: seq<nat>, d: Loc): (r: Objects)
    requires forall a | a in args :: a in objs
    ensures r.Keys == objs.Keys
  {
    if args == [] then objs else
      var n := |args| - 1;
      var r := UpdateAll(objs, args[..n], d);
      if r[args[n]].flags.Writable() then SetLatest(r, args[n], d) else AddLatest(r, args[n], d)
  }

  /** The Update family, and Submit: latest sets are changed before the command runs. */
  ghost function Submit(m: Machine, objs: Objects, fetch: Fetch, source: Loc): Machine
    requires m.queue != [] && objs.Keys == m.objs.Keys
    requires Names(objs, m.queue[0].op)
  {
    var c := m.queue[0];
    var d := Dev(c.dev);
    var objs' :=
      match c.op
      case Kernel(args, _) => UpdateAll(objs, args, d)
      case Read(o, _, _) => AddLatest(objs, o, source)
      case Write(o, _, _) => SetLatest(objs, o, d)
      case Fill(o, _, _) => SetLatest(objs, o, d)
      case Copy(_, t, _, _, _) => SetLatest(objs, t, d);
    m.(objs := objs', head := Submitted(fetch, source))
  }

  /** The objects an operation names. */
  function Touched(op: Op): seq<nat> {
    match op
    case Kernel(args, _) => args
    case Read(o, _, _) => [o]
    case Write(o, _, _) => [o]
    case Fill(o, _, _) => [o]
    case Copy(s, t, _, _, _) => [s, t]
  }

  /** The objects whose latest set the operation changes. */
  function Claimed(op: Op): seq<nat> { if op.Copy? then [op.dst] else Touched(op) }

  /** The objects an operation names exist. */
  ghost predicate Names(objs: Objects, op: Op) { forall a | a in Touched(op) :: a in objs }

  /** Peek returns the head: its predecessor is complete, and so are the clones and the
      read it waits for. */
  predicate Peeked(m: Machine) {
    m.queue != [] && m.head.Resolving? && m.head.clones == map[] && !(m.head.fetch.Wanted? && m.head.fetch.awaited)
  }

  /** The read a copy by this pattern needs. */
  function Feeding(pattern: Pattern, source: Loc): Fetch {
    if pattern.ReadThenWrite? || pattern.SendReceive? then Wanted(source, pattern.ReadThenWrite?) else NoFetch
  }

  /** ResolveConsistency answered false. */
  function Refuse(m: Machine, objs: Objects, resolved: bool, clones: map<nat, Clone>, fetch: Fetch, source: Loc): Machine
    requires m.head.Resolving?
  {
    m.(objs := objs, head := Resolving(resolved, m.head.refusals + 1, clones, fetch, source))
  }

  /** The rest of ResolveConsistencyOfCopyMem, when the source has been found. */
  ghost function ResolveCopyFrom(devs: seq<Device>, m: Machine, near: nat -> Loc, source: Loc): Machine
    requires Peeked(m) && m.queue[0].dev < |devs| && m.queue[0].op.Copy? && Names(m.objs, m.queue[0].op) && Known(devs, source)
  {
    var c, objs := m.queue[0], m.objs;
    var d, t := Dev(c.dev), c.op.dst;
    var here := WholeObject(objs, t, c.op.off, c.op.count) || Located(objs, t, d);
    var objs' := if here then objs else AddLatest(objs, t, d);
    var clones: map<nat, Clone> := if here then map[] else map[t := Ordered(near(t))];
    var pattern := CopyPattern(devs, source, c.dev);
    var fetch := Feeding(pattern, source);
    if here && !pattern.ReadThenWrite? then Submit(m, objs', fetch, source)
    else Refuse(m, objs', true, clones, fetch, source)
  }

  /** One call of ResolveConsistency, with the Submit and Dequeue that follow if it
      answers true. */
  ghost function Resolve(devs: seq<Device>, m: Machine, near: nat -> Loc): Machine
    requires Peeked(m) && m.queue[0].dev < |devs|
    requires Names(m.objs, m.queue[0].op)
    requires forall o :: Known(devs, near(o))
  {
    var c, objs := m.queue[0], m.objs;
    var d := Dev(c.dev);
    if m.head.resolved then Submit(m, objs, m.head.fetch, m.head.source)
    else
      match c.op
      case Kernel(args, _) =>
        var r := LocateAll(objs, map[], args, d, near);
        if r.1 == map[] then Submit(m, r.0, NoFetch, d) else Refuse(m, r.0, true, r.1, NoFetch, d)
      case Read(o, _, _) =>
        if Located(objs, o, d) then Submit(m, objs, NoFetch, d)
        else if near(o) == Host then Refuse(m, AddLatest(objs, o, d), true, map[o := Ordered(Host)], NoFetch, d)
        else Submit(m, objs, NoFetch, near(o))
      case Write(o, off, data) =>
        if WholeObject(objs, o, off, |data|) || Located(objs, o, d) then Submit(m, objs, NoFetch, d)
        else Refuse(m, AddLatest(objs, o, d), true, map[o := Ordered(near(o))], NoFetch, d)
      case Fill(o, _, _) =>
        Submit(m, objs, NoFetch, d)
      case Copy(s, t, _, off, count) =>
        if !Located(objs, s, d) && near(s) == Host then
          Refuse(m, AddLatest(objs, s, d), false, map[s := Ordered(Host)], NoFetch, d)
        else
          ResolveCopyFrom(devs, m, near, if Located(objs, s, d) then d else near(s))
  }

  /** The read that feeds a copy. */
  function FetchStep(m: Machine): Machine
    requires m.queue != [] && m.queue[0].op.Copy? && m.head.fetch.Wanted?
    requires var c := m.queue[0].op;
             c.src in m.objs && m.head.fetch.from in m.objs[c.src].copies && c.from + c.count <= |m.objs[c.src].copies[m.head.fetch.from]|
  {
    var c := m.queue[0].op;
    m.(head := m.head.(fetch := Fetched(m.objs[c.src].copies[m.head.fetch.from][c.from..c.from + c.count])))
  }

  /** WriteBuffer on every device, each of which then counts as latest. */
  function Spread(devs: seq<Device>, ob: Object, off: nat, data: Data): (r: Object)
    requires ObjectOk(devs, ob) && off + |data| <= ob.size
  {
    ob.(copies := map l | l in ob.copies :: if l.Dev? then Splice(ob.copies[l], off, data) else ob.copies[l],
        latest := ob.latest + set l | l in ob.copies && l.Dev?)
  }

  /** A write to device d; to all devices if the object is read-only. */
  function Written(devs: seq<Device>, ob: Object, d: nat, off: nat, data: Data): (r: Object)
    requires ObjectOk(devs, ob) && d < |devs| && off + |data| <= ob.size
  {
    if ob.flags.OnlyReadOnly() then Spread(devs, ob, off, data)
    else ob.(copies := ob.copies[Dev(d) := Splice(ob.copies[Dev(d)], off, data)])
  }

  /** One half of a clone: its read, or its write on device n, which unless it is done
      by one copy command is a WriteBuffer like any other. */
  function ClonedObject(devs: seq<Device>, ob: Object, clone: Clone, n: nat): Object
    requires Clonable(devs, ob, clone) && n < |devs|
  {
    match clone
    case Ordered(_) => ob
    case Carried(from, data) =>
      if CopyPattern(devs, from, n).CopyIt? || CopyPattern(devs, from, n).ClusterCopy? then ob.(copies := ob.copies[Dev(n) := data])
      else Written(devs, ob, n, 0, data)
  }

  ghost predicate Clonable(devs: seq<Device>, ob: Object, clone: Clone) {
    && ObjectOk(devs, ob) && Known(devs, clone.from)
    && match clone case Ordered(from) => from in ob.copies case Carried(_, data) => |data| == ob.size
  }

  function ClonesLeft(clones: map<nat, Clone>, o: nat, ob: Object): map<nat, Clone>
    requires o in clones && (clones[o].Ordered? ==> clones[o].from in ob.copies)
  {
    match clones[o]
    case Ordered(from) => clones[o := Carried(from, ob.copies[from])]
    case Carried(_, _) => clones - {o}
  }

  /** Object o has a clone on its way to the device of the head. */
  ghost predicate Cloning(devs: seq<Device>, m: Machine, o: nat) {
    && m.queue != [] && m.head.Resolving? && o in m.head.clones && o in m.objs
    && m.queue[0].dev < |devs| && Clonable(devs, m.objs[o], m.head.clones[o])
  }

  function CloneStep(devs: seq<Device>, m: Machine, o: nat): Machine
    requires Cloning(devs, m, o)
  {
    m.(objs := m.objs[o := ClonedObject(devs, m.objs[o], m.head.clones[o], m.queue[0].dev)],
       head := m.head.(clones := ClonesLeft(m.head.clones, o, m.objs[o])))
  }

  function Contents(objs: Objects, args: seq<nat>, l: Loc): (r: map<nat, Data>)
    requires forall a | a in args :: a in objs && l in objs[a].copies
    ensures forall a :: a in r <==> a in args
    ensures forall a | a in args :: r[a] == objs[a].copies[l]
  {
    map a | a in args :: objs[a].copies[l]
  }

  /** New contents of the arguments on device d. */
  function Stored(objs: Objects, outs: map<nat, Data>, d: Loc): (r: Objects)
    requires forall a | a in outs :: a in objs
    ensures r.Keys == objs.Keys
  {
    map o | o in objs :: if o in outs then objs[o].(copies := objs[o].copies[d := outs[o]]) else objs[o]
  }

  /** The head is on its device, and what a copy through a buffer needs has arrived. */
  ghost predicate Executable(devs: seq<Device>, m: Machine) {
    && Ok(devs, m) && m.queue != [] && m.head.Submitted? && !m.head.fetch.Wanted? && Known(devs, m.head.source)
    && (m.head.fetch.Fetched? ==> m.queue[0].op.Copy? && |m.head.fetch.data| == m.queue[0].op.count)
  }

  /** The command runs and completes; the next one becomes the head. */
  ghost function Execute(devs: seq<Device>, m: Machine): Machine
    requires Executable(devs, m)
  {
    var c, objs := m.queue[0], m.objs;
    var n := m.(queue := m.queue[1..], head := FRESH);
    match c.op
    case Kernel(args, run) =>
      var ins := Contents(objs, args, Dev(c.dev));
      assert Fits(objs, args, ins);
      n.(objs := Stored(objs, run(ins), Dev(c.dev)), log := m.log + [ins])
    case Read(o, off, count) =>
      n.(log := m.log + [map[o := objs[o].copies[m.head.source][off..off + count]]])
    case Write(o, off, data) =>
      n.(objs := objs[o := Written(devs, objs[o], c.dev, off, data)])
    case Fill(o, off, data) =>
      n.(objs := objs[o := objs[o].(copies := objs[o].copies[Dev(c.dev) := Splice(objs[o].copies[Dev(c.dev)], off, data)])])
    case Copy(s, t, from, off, count) =>
      if m.head.fetch.Fetched? then
        n.(objs := objs[t := Written(devs, objs[t], c.dev, off, m.head.fetch.data)])
      else
        var data := objs[s].copies[m.head.source][from..from + count];
        n.(objs := objs[t := objs[t].(copies := objs[t].copies[Dev(c.dev) := Splice(objs[t].copies[Dev(c.dev)], off, data)])])
  }

  /** One memory, used in the order of the queue. An object's contents are undefined
      until it is first written, read or given to a kernel. */
  datatype Memory = Memory(mem: map<nat, Option<Data>>, log: seq<map<nat, Data>>)

  /** Contents of o; if undefined, what the using device happens to hold. */
  function Value(q: Memory, o: nat, found: map<nat, Data>): Data
    requires o in q.mem && o in found
  {
    match q.mem[o] case None => found[o] case Some(v) => v
  }

  function Values(q: Memory, args: seq<nat>, found: map<nat, Data>): (r: map<nat, Data>)
    requires forall a | a in args :: a in q.mem && a in found
    ensures forall a :: a in r <==> a in args
    ensures forall a | a in args :: r[a] == Value(q, a, found)
  {
    map a | a in args :: Value(q, a, found)
  }

  /** The objects are there, and the ranges inside them. */
  ghost predicate Performs(q: Memory, op: Op, found: map<nat, Data>) {
    && (forall a | a in Touched(op) :: a in q.mem && a in found)
    && match op
       case Kernel(args, run) => forall a | a in run(Values(q, args, found)) :: a in args
       case Read(o, off, count) => off + count <= |Value(q, o, found)|
       case Write(o, off, data) => off + |data| <= |Value(q, o, found)|
       case Fill(o, off, data) => off + |data| <= |Value(q, o, found)|
       case Copy(s, t, from, off, count) => from + count <= |Value(q, s, found)| && off + count <= |Value(q, t, found)|
  }

  /** What the operation does to the one memory. */
  ghost function Apply(q: Memory, op: Op, found: map<nat, Data>): Memory
    requires Performs(q, op, found)
  {
    match op
    case Kernel(args, run) =>
      var ins := Values(q, args, found);
      var outs := run(ins);
      Memory(map o | o in q.mem :: if o in outs then Some(outs[o]) else q.mem[o], q.log + [ins])
    case Read(o, off, count) =>
      var v := Value(q, o, found);
      Memory(q.mem[o := Some(v)], q.log + [map[o := v[off..off + count]]])
    case Write(o, off, data) =>
      q.(mem := q.mem[o := Some(Splice(Value(q, o, found), off, data))])
    case Fill(o, off, data) =>
      q.(mem := q.mem[o := Some(Splice(Value(q, o, found), off, data))])
    case Copy(s, t, from, off, count) =>
      var v := Value(q, s, found);
      q.(mem := q.mem[t := Some(Splice(Value(q, t, found), off, v[from..from + count]))])
  }

  /** The device of the head has copies of what the head names. */
  ghost predicate Findable(m: Machine) {
    m.queue != [] && forall a | a in Touched(m.queue[0].op) :: a in m.objs && Dev(m.queue[0].dev) in m.objs[a].copies
  }

  /** What the device of the running command holds. */
  ghost function Found(m: Machine): map<nat, Data>
    requires Findable(m)
  {
    Contents(m.objs, Touched(m.queue[0].op), Dev(m.queue[0].dev))
  }
}
